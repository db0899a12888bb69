/**
 * ISO/IEC 7064 MOD 97-10 as a reference definition: a string of base-36
 * digit values is read as the decimal numeral obtained by writing each value
 * out in decimal (one digit below 10, two digits from 10 to 35) and
 * concatenating; its check residue is that number modulo 97. Nothing here
 * folds: the number is defined positionally, most significant digit first,
 * so the left-to-right folds of the LEI code can be proved against it.
 */
module Iso7064 {

  const Modulus: nat := 97

  predicate AllBase36(ds: seq<nat>) { forall i :: 0 <= i < |ds| ==> ds[i] < 36 }
  predicate AllDecimal(ds: seq<nat>) { forall i :: 0 <= i < |ds| ==> ds[i] < 10 }

  function Pow10(n: nat): (r: nat)
    ensures r >= 1
  {
    if n == 0 then 1 else 10 * Pow10(n - 1)
  }

  /** The value of a decimal numeral given most significant digit first. */
  function NumeralValue(ds: seq<nat>): nat
  {
    if ds == [] then 0 else ds[0] * Pow10(|ds| - 1) + NumeralValue(ds[1..])
  }

  /** A base-36 digit value written in decimal: one digit below 10, two otherwise. */
  function DigitExpansion(d: nat): (r: seq<nat>)
    requires d < 36
    ensures AllDecimal(r)
    ensures |r| == if d < 10 then 1 else 2
    ensures NumeralValue(r) == d
  {
    if d < 10 then
      assert NumeralValue([d]) == d * Pow10(0) + NumeralValue([]);
      [d]
    else
      var r := [d / 10, d % 10];
      assert r[1..] == [d % 10] && NumeralValue([d % 10]) == d % 10 * Pow10(0) + NumeralValue([]);
      assert Pow10(1) == 10;
      r
  }

  /** The decimal numeral of a whole base-36 string: the digit expansions concatenated. */
  function Expansion(ds: seq<nat>): (r: seq<nat>)
    requires AllBase36(ds)
    ensures AllDecimal(r)
  {
    if ds == [] then [] else DigitExpansion(ds[0]) + Expansion(ds[1..])
  }

  /** The MOD 97-10 residue of a base-36 string. */
  function Residue(ds: seq<nat>): nat
    requires AllBase36(ds)
  {
    NumeralValue(Expansion(ds)) % Modulus
  }

  /** A string of base-36 values carries valid MOD 97-10 check digits iff its residue is 1. */
  predicate HasValidCheck(ds: seq<nat>)
    requires AllBase36(ds)
  {
    Residue(ds) == 1
  }

  lemma {:induction false} Pow10Add(m: nat, n: nat)
    ensures Pow10(m + n) == Pow10(m) * Pow10(n)
  {
    if m > 0 {
      Pow10Add(m - 1, n);
      assert Pow10(m + n) == 10 * Pow10(m - 1 + n);
    }
  }

  /** Writing one numeral after another multiplies the first by the second's magnitude. */
  lemma {:induction false} NumeralValueAppend(a: seq<nat>, b: seq<nat>)
    ensures NumeralValue(a + b) == NumeralValue(a) * Pow10(|b|) + NumeralValue(b)
  {
    if a == [] {
      assert a + b == b;
    } else {
      assert (a + b)[1..] == a[1..] + b;
      NumeralValueAppend(a[1..], b);
      Pow10Add(|a| - 1, |b|);
      var x, p, q, n := a[0], Pow10(|a| - 1), Pow10(|b|), NumeralValue(a[1..]);
      assert NumeralValue(a + b) == x * (p * q) + (n * q + NumeralValue(b));
      Distribute(x, p, n, q);
    }
  }

  lemma Distribute(x: nat, p: nat, n: nat, q: nat)
    ensures x * (p * q) + n * q == (x * p + n) * q
  {
  }

  lemma {:induction false} ExpansionAppend(a: seq<nat>, b: seq<nat>)
    requires AllBase36(a) && AllBase36(b)
    ensures AllBase36(a + b)
    ensures Expansion(a + b) == Expansion(a) + Expansion(b)
  {
    if a == [] {
      assert a + b == b;
    } else {
      assert (a + b)[1..] == a[1..] + b;
      ExpansionAppend(a[1..], b);
    }
  }

  /** Adding a multiple of the modulus does not change a residue. */
  lemma ModAddMultiple(k: int, y: int)
    ensures (Modulus * k + y) % Modulus == y % Modulus
  {
  }

  /** Reducing the left operand first does not change `(x * m + d) % 97`. */
  lemma ModMulAdd(x: nat, m: nat, d: nat)
    ensures ((x % Modulus) * m + d) % Modulus == (x * m + d) % Modulus
  {
    var q := x / Modulus;
    assert x == Modulus * q + x % Modulus;
    assert x * m + d == Modulus * (q * m) + ((x % Modulus) * m + d);
    ModAddMultiple(q * m, (x % Modulus) * m + d);
  }

  /** Appending a digit to a base-36 string appends its expansion to the numeral. */
  lemma ExpansionSnoc(ds: seq<nat>, d: nat)
    requires AllBase36(ds) && d < 36
    ensures AllBase36(ds + [d])
    ensures NumeralValue(Expansion(ds + [d])) == NumeralValue(Expansion(ds)) * Pow10(|DigitExpansion(d)|) + d
  {
    ExpansionAppend(ds, [d]);
    assert [d][1..] == [];
    assert Expansion([d]) == DigitExpansion(d) + Expansion([]) == DigitExpansion(d);
    NumeralValueAppend(Expansion(ds), DigitExpansion(d));
  }

  /**
   * Horner's rule for MOD 97-10: appending one base-36 digit `d` to a string
   * maps its residue `r` to `(r * m + d) % 97`, where `m` is 100 for a
   * two-decimal-digit value and 10 otherwise.
   */
  lemma HornerStep(ds: seq<nat>, d: nat)
    requires AllBase36(ds) && d < 36
    ensures AllBase36(ds + [d])
    ensures Residue(ds + [d]) == (Residue(ds) * (if d > 9 then 100 else 10) + d) % Modulus
  {
    ExpansionSnoc(ds, d);
    var m := if d > 9 then 100 else 10;
    assert Pow10(1) == 10 && Pow10(2) == 100;
    assert Pow10(|DigitExpansion(d)|) == m;
    ModMulAdd(NumeralValue(Expansion(ds)), m, d);
  }

  /** Appending two decimal digits multiplies the residue by 100 and adds their value. */
  lemma TwoDigits(ds: seq<nat>, d1: nat, d2: nat)
    requires AllBase36(ds) && d1 < 10 && d2 < 10
    ensures AllBase36(ds + [d1, d2])
    ensures Residue(ds + [d1, d2]) == (Residue(ds) * 100 + (10 * d1 + d2)) % Modulus
  {
    var r0 := Residue(ds);
    HornerStep(ds, d1);
    assert ds + [d1, d2] == (ds + [d1]) + [d2];
    HornerStep(ds + [d1], d2);
    ModMulAdd(r0 * 10 + d1, 10, d2);
    assert (r0 * 10 + d1) * 10 + d2 == r0 * 100 + (10 * d1 + d2);
  }

  /**
   * The check-digit computation of MOD 97-10: if `ds` followed by two zero
   * digits has residue `r`, replacing those zeros by the two decimal digits of
   * `98 - r` gives residue 1, and `98 - r` always has exactly two digits
   * between 02 and 98.
   */
  lemma CheckDigits(ds: seq<nat>)
    requires AllBase36(ds)
    ensures AllBase36(ds + [0, 0])
    ensures 2 <= 98 - Residue(ds + [0, 0]) <= 98
    ensures var c := 98 - Residue(ds + [0, 0]);
      AllBase36(ds + [c / 10, c % 10]) && HasValidCheck(ds + [c / 10, c % 10])
  {
    var r0 := Residue(ds);
    TwoDigits(ds, 0, 0);
    var r := Residue(ds + [0, 0]);
    var c := 98 - r;
    TwoDigits(ds, c / 10, c % 10);
    assert 10 * (c / 10) + c % 10 == c;
    var q := (r0 * 100) / Modulus;
    assert r0 * 100 == Modulus * q + r;
    assert r0 * 100 + c == Modulus * (q + 1) + 1;
    ModAddMultiple(q + 1, 1);
  }
}

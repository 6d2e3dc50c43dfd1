/** Year-of-study ("nivel") arithmetic: two semesters make one year. */
module Utils {

  /** `calcularNivel`: `Math.ceil(semestre / 2)`. For an integer s that is the
      unique n with 2n - 1 <= s <= 2n; Dafny's `/` floors for a positive
      divisor, so it is `(s + 1) / 2`, negative semesters included. */
  function Nivel(semester: int): (n: int)
    ensures 2 * n - 1 <= semester <= 2 * n
  {
    (semester + 1) / 2
  }

  /** Semesters 2k - 1 and 2k are the two halves of year k. */
  lemma NivelOfYear(k: int)
    ensures Nivel(2 * k - 1) == k && Nivel(2 * k) == k
  {
  }

  /** Two more semesters is one more year, and later semesters are never in
      an earlier year. */
  lemma NivelSteps(s: int, t: int)
    ensures Nivel(s + 2) == Nivel(s) + 1
    ensures s <= t ==> Nivel(s) <= Nivel(t)
  {
  }

  /** Every real semester (1 or later) is in year 1 or later. */
  lemma NivelPositive(s: int)
    requires s >= 1
    ensures Nivel(s) >= 1
  {
  }

  /** The names of years 1 to 6. */
  const YearNames: seq<string> :=
    ["Primer Año", "Segundo Año", "Tercer Año", "Cuarto Año", "Quinto Año", "Sexto Año"]

  lemma YearNamesDistinct(a: int, b: int)
    requires 1 <= a <= 6 && 1 <= b <= 6
    requires YearNames[a - 1] == YearNames[b - 1]
    ensures a == b
  {
    if a == 1 {} else if a == 2 {} else if a == 3 {} else if a == 4 {} else if a == 5 {}
  }

  /** No year name starts like the fallback label "Año n". */
  lemma YearNameInitial(n: int)
    requires 1 <= n <= 6
    ensures YearNames[n - 1][0] != 'A'
  {
    if n == 1 {} else if n == 2 {} else if n == 3 {} else if n == 4 {} else if n == 5 {}
  }

  /** The decimal digit character of d. */
  function DigitChar(d: int): char
    requires 0 <= d < 10
  {
    "0123456789"[d]
  }

  predicate IsDigit(c: char) {
    '0' as int <= c as int <= '9' as int
  }

  /** The decimal numeral of n: digits only, no leading zero. */
  function NatToDecimal(n: nat): (r: string)
    ensures |r| >= 1
    ensures forall i :: 0 <= i < |r| ==> IsDigit(r[i])
    ensures |r| > 1 ==> r[0] != '0'
    decreases n
  {
    if n < 10 then [DigitChar(n)] else NatToDecimal(n / 10) + [DigitChar(n % 10)]
  }

  /** The value of a string of decimal digits. */
  function DecimalValue(s: string): nat
    requires forall i :: 0 <= i < |s| ==> IsDigit(s[i])
    decreases |s|
  {
    if s == [] then 0
    else
      assert IsDigit(s[|s| - 1]);
      DecimalValue(s[..|s| - 1]) * 10 + (s[|s| - 1] as int - '0' as int)
  }

  /** Reading back a numeral gives the number: the numeral determines n. */
  lemma {:induction false} DecimalRoundTrip(n: nat)
    ensures DecimalValue(NatToDecimal(n)) == n
    decreases n
  {
    var r := NatToDecimal(n);
    if n >= 10 {
      DecimalRoundTrip(n / 10);
      assert r[..|r| - 1] == NatToDecimal(n / 10);
    }
  }

  /** A number in a template literal: an optional minus sign, then the
      numeral of its magnitude. */
  function IntToDecimal(n: int): string {
    if n < 0 then "-" + NatToDecimal(-n) else NatToDecimal(n)
  }

  lemma IntToDecimalInjective(a: int, b: int)
    ensures IntToDecimal(a) == IntToDecimal(b) ==> a == b
  {
    if IntToDecimal(a) == IntToDecimal(b) {
      if a < 0 && b < 0 {
        NegativeNumerals(a, b);
      } else if a >= 0 && b >= 0 {
        DecimalRoundTrip(a);
        DecimalRoundTrip(b);
      } else if a < 0 {
        NoMinusSign(b);
      } else {
        NoMinusSign(a);
      }
    }
  }

  lemma NegativeNumerals(a: int, b: int)
    requires a < 0 && b < 0 && IntToDecimal(a) == IntToDecimal(b)
    ensures a == b
  {
    MinusTail(a);
    MinusTail(b);
    var m, n: nat := -a, -b;
    assert NatToDecimal(m) == NatToDecimal(n);
    DecimalRoundTrip(m);
    DecimalRoundTrip(n);
    assert m == n;
  }

  /** After the minus sign comes the numeral of the magnitude. */
  lemma MinusTail(n: int)
    requires n < 0
    ensures IntToDecimal(n)[1..] == NatToDecimal(-n)
  {
    var d := NatToDecimal(-n);
    assert IntToDecimal(n) == "-" + d;
  }

  /** The numeral of a non-negative number does not start with a minus sign,
      so it differs from the numeral of any negative number. */
  lemma NoMinusSign(n: int)
    requires n >= 0
    ensures IntToDecimal(n)[0] != '-'
  {
    assert IsDigit(IntToDecimal(n)[0]);
  }

  /** `getNivelLabel`: the name of years 1 to 6, and "Año n" for any other n. */
  function NivelLabel(nivel: int): (r: string)
    ensures 1 <= nivel <= 6 ==> r == YearNames[nivel - 1]
    ensures !(1 <= nivel <= 6) ==> r == "Año " + IntToDecimal(nivel)
  {
    if 1 <= nivel <= 6 then YearNames[nivel - 1] else "Año " + IntToDecimal(nivel)
  }

  /** Different years get different labels, so the label identifies the year. */
  lemma NivelLabelInjective(a: int, b: int)
    ensures NivelLabel(a) == NivelLabel(b) ==> a == b
  {
    if NivelLabel(a) == NivelLabel(b) {
      if !(1 <= a <= 6) && !(1 <= b <= 6) {
        assert NivelLabel(a)[4..] == IntToDecimal(a);
        assert NivelLabel(b)[4..] == IntToDecimal(b);
        IntToDecimalInjective(a, b);
      } else if 1 <= a <= 6 && 1 <= b <= 6 {
        YearNamesDistinct(a, b);
      } else if 1 <= a <= 6 {
        YearNameInitial(a);
      } else {
        YearNameInitial(b);
      }
    }
  }

  /** The result of `getNivelFromSemester`. */
  datatype NivelInfo = NivelInfo(nivel: int, nivelLabel: string)

  /** `getNivelFromSemester`: the year of a semester together with its label. */
  function NivelFromSemester(semester: int): (r: NivelInfo)
    ensures r.nivel == Nivel(semester) && r.nivelLabel == NivelLabel(Nivel(semester))
    ensures 2 * r.nivel - 1 <= semester <= 2 * r.nivel
  {
    var n := Nivel(semester);
    NivelInfo(n, NivelLabel(n))
  }
}

/**
 * `pd.to_numeric(column, errors="coerce")` on one cell. A cell read from the CSV
 * file is a number, an empty cell (NaN), or text; text is parsed as a decimal
 * number and becomes NaN when it does not parse, instead of raising.
 */
module NumericCoercion {
  import opened Wrappers

  /** A cell of an indicator column as loaded: a number, NaN, or a string. */
  datatype Cell = Num(v: real) | Empty | Text(s: string)

  predicate IsDigit(ch: char) { '0' <= ch <= '9' }

  predicate AllDigits(s: string) { forall i :: 0 <= i < |s| ==> IsDigit(s[i]) }

  function DigitValue(ch: char): nat
    requires IsDigit(ch)
  {
    ch as int - '0' as int
  }

  /** The value of a string of decimal digits, most significant first. */
  function DigitsValue(s: string): nat
    requires AllDigits(s)
  {
    if s == [] then 0 else DigitsValue(s[..|s| - 1]) * 10 + DigitValue(s[|s| - 1])
  }

  function Pow10(n: nat): (r: nat)
    ensures r >= 1
  {
    if n == 0 then 1 else 10 * Pow10(n - 1)
  }

  /** Index of the first '.' in `s`, or |s| when there is none. */
  function DotIndex(s: string): (k: nat)
    ensures k <= |s|
    ensures k < |s| ==> s[k] == '.'
    ensures forall i :: 0 <= i < k ==> s[i] != '.'
  {
    if s == [] then 0
    else if s[0] == '.' then 0
    else 1 + DotIndex(s[1..])
  }

  /**
   * An unsigned decimal: digits, optionally a '.' and more digits, with at least
   * one digit in all ("7", "7.", ".5", "7.25").
   */
  function ParseUnsigned(s: string): Option<real>
  {
    var k := DotIndex(s);
    var whole := s[..k];
    var frac := if k < |s| then s[k + 1..] else [];
    if AllDigits(whole) && AllDigits(frac) && |whole| + |frac| > 0 then
      Some(DigitsValue(whole) as real + DigitsValue(frac) as real / Pow10(|frac|) as real)
    else
      None
  }

  /** A decimal with an optional leading '-' or '+'; None when the text is not a number. */
  function ParseNumber(s: string): Option<real>
  {
    if |s| > 0 && s[0] == '-' then
      match ParseUnsigned(s[1..])
      case Some(v) => Some(-v)
      case None => None
    else if |s| > 0 && s[0] == '+' then ParseUnsigned(s[1..])
    else ParseUnsigned(s)
  }

  /** Coercion of one cell: numbers and NaN are kept, text is parsed or becomes NaN. */
  function Coerce(c: Cell): (r: Cell)
    ensures !r.Text?
    ensures c.Num? ==> r == c
    ensures r.Empty? <==> c.Empty? || (c.Text? && ParseNumber(c.s).None?)
    ensures c.Text? && r.Num? ==> r.v == ParseNumber(c.s).value
  {
    match c
    case Num(_) => c
    case Empty => Empty
    case Text(s) =>
      match ParseNumber(s)
      case Some(v) => Num(v)
      case None => Empty
  }

  /** The numeric value of a coerced cell; NaN and text have none. */
  function Value(c: Cell): Option<real>
  {
    if c.Num? then Some(c.v) else None
  }

  /** The decimal rendering of a natural number, as a CSV writer would print it. */
  function ShowNat(n: nat): (s: string)
    decreases n
  {
    if n < 10 then ['0' + n as char] else ShowNat(n / 10) + ['0' + (n % 10) as char]
  }

  lemma {:induction false} ShowNatDigits(n: nat)
    ensures |ShowNat(n)| > 0 && AllDigits(ShowNat(n))
    ensures DigitsValue(ShowNat(n)) == n
    decreases n
  {
    if n >= 10 {
      ShowNatDigits(n / 10);
      var s := ShowNat(n);
      assert s[..|s| - 1] == ShowNat(n / 10);
    }
  }

  /** Parsing the rendering of a natural number gives it back. */
  lemma ParseShowNat(n: nat)
    ensures ParseNumber(ShowNat(n)) == Some(n as real)
    ensures ParseNumber("-" + ShowNat(n)) == Some(-(n as real))
  {
    var s := ShowNat(n);
    ShowNatDigits(n);
    assert DotIndex(s) == |s|;
    assert s[..|s|] == s;
    assert ("-" + s)[1..] == s;
  }

  /** Text that is not a number becomes NaN rather than raising. */
  lemma UnparseableBecomesMissing()
    ensures Coerce(Text("abc")) == Empty
    ensures Coerce(Text("")) == Empty
    ensures Coerce(Text("-")) == Empty
    ensures Coerce(Text(".")) == Empty
    ensures Coerce(Text("1.2.3")) == Empty
  {
    assert DotIndex("abc") == 3;
    assert !IsDigit("abc"[0]);
    assert DotIndex("1.2.3") == 1;
    assert "1.2.3"[2..] == "2.3";
    assert !IsDigit("2.3"[1]);
  }

  /** A parseable decimal string becomes its value. */
  lemma ParseableBecomesNumber()
    ensures Coerce(Text("2.5")) == Num(2.5)
  {
    assert DotIndex("2.5") == 1;
    assert "2.5"[..1] == "2" && "2.5"[2..] == "5";
    assert DigitsValue("2") == 2 by { assert "2"[..0] == []; }
    assert DigitsValue("5") == 5 by { assert "5"[..0] == []; }
  }

  /** A leading minus sign negates the parsed value. */
  lemma NegativeBecomesNumber()
    ensures Coerce(Text("-0.75")) == Num(-0.75)
  {
    var u := "-0.75"[1..];
    assert u == "0.75";
    assert DotIndex(u) == 1;
    assert u[..1] == "0" && u[2..] == "75";
    assert DigitsValue("0") == 0 by { assert "0"[..0] == []; }
    assert DigitsValue("75") == 75 by { assert "75"[..1] == "7"; assert "7"[..0] == []; }
  }
}

/**
  JSON values as the client sees them after decoding (RFC 8259), and the few
  Python coercions the client applies to them.
 */
module Json {
  datatype Json =
    | Null
    | Bool(b: bool)
    | Int(i: int)
    | Float(r: real)
    | Str(s: string)
    | Arr(items: seq<Json>)
    | Obj(fields: map<string, Json>)

  /** Python's `value == 0`: booleans and floats compare as numbers. */
  predicate EqualsZero(j: Json) {
    j == Int(0) || j == Bool(false) || j == Float(0.0)
  }

  const DIGITS: string := "0123456789"

  /** Python's `str` of a natural number. */
  function Decimal(n: nat): (s: string)
    ensures |s| > 0
  {
    if n < 10 then [DIGITS[n]] else Decimal(n / 10) + [DIGITS[n % 10]]
  }

  /** Python's `str(value) == str(n)` for a wire value that is not null. */
  predicate PrintsAs(j: Json, n: nat) {
    j == Int(n) || j == Str(Decimal(n))
  }

  lemma {:induction false} DecimalInjective(m: nat, n: nat)
    requires Decimal(m) == Decimal(n)
    ensures m == n
  {
    var s, t := Decimal(m), Decimal(n);
    assert s[|s| - 1] == DIGITS[m % 10] && t[|t| - 1] == DIGITS[n % 10];
    if m >= 10 && n >= 10 {
      assert s[..|s| - 1] == Decimal(m / 10) && t[..|t| - 1] == Decimal(n / 10);
      DecimalInjective(m / 10, n / 10);
    }
  }

  predicate IsDigit(c: char) {
    '0' <= c <= '9'
  }

  /** The number a text of decimal digits stands for. */
  function Parsed(text: string): nat
    requires forall i | 0 <= i < |text| :: IsDigit(text[i])
  {
    if text == "" then 0
    else
      assert IsDigit(text[|text| - 1]);
      10 * Parsed(text[..|text| - 1]) + (text[|text| - 1] as int - '0' as int)
  }

  /** The text of a number is its decimal digits, without a leading zero. */
  lemma {:induction false} DecimalParses(n: nat)
    ensures forall i | 0 <= i < |Decimal(n)| :: IsDigit(Decimal(n)[i])
    ensures Parsed(Decimal(n)) == n
    ensures n > 0 ==> Decimal(n)[0] != '0'
  {
    var text := Decimal(n);
    var last := n % 10;
    assert DIGITS[last] as int == '0' as int + last;
    if n >= 10 {
      DecimalParses(n / 10);
      assert text[..|text| - 1] == Decimal(n / 10);
    } else {
      assert text[..0] == "";
    }
  }
}

/** The JavaScript values that the invoice handler reads from its request body,
    and the two conversions it applies to them: truthiness (`x || fallback`,
    `!x`) and conversion to text inside a template literal (`${x}`). */
module JsValues {

  /** A request field as parsed from JSON. Numbers are integers here, and
      their text is written out in full (see `IntToString`). */
  datatype JsValue = Undefined | Null | Bool(b: bool) | Num(n: int) | Str(s: string)

  /** JavaScript truthiness: `undefined`, `null`, `false`, `0` and `""` are falsy. */
  predicate Truthy(v: JsValue)
  {
    match v
    case Undefined => false
    case Null => false
    case Bool(b) => b
    case Num(n) => n != 0
    case Str(s) => s != ""
  }

  predicate IsDigit(c: char)
  {
    '0' <= c <= '9'
  }

  predicate AllDigits(s: string)
  {
    forall i :: 0 <= i < |s| ==> IsDigit(s[i])
  }

  function DigitValue(c: char): (d: nat)
    requires IsDigit(c)
    ensures d < 10
  {
    c as int - '0' as int
  }

  function DigitChar(d: nat): (c: char)
    requires d < 10
    ensures IsDigit(c) && DigitValue(c) == d
  {
    ('0' as int + d) as char
  }

  /** Decimal numeral of a natural number, as `String(n)` writes it below
      10^21: most significant digit first and no leading zero. */
  function NatToString(n: nat): (s: string)
    ensures 1 <= |s| && AllDigits(s)
    ensures |s| == 1 <==> n < 10
    ensures |s| > 1 ==> s[0] != '0'
  {
    if n < 10 then [DigitChar(n)]
    else
      var high := NatToString(n / 10);
      assert |high| == 1 ==> DigitValue(high[0]) == n / 10 >= 1;
      high + [DigitChar(n % 10)]
  }

  /** The value a string of decimal digits denotes. */
  function ParseDigits(s: string): nat
    requires AllDigits(s)
  {
    if s == [] then 0 else ParseDigits(s[..|s| - 1]) * 10 + DigitValue(s[|s| - 1])
  }

  lemma {:induction false} ParseNatToString(n: nat)
    ensures ParseDigits(NatToString(n)) == n
  {
    if n >= 10 {
      var s := NatToString(n);
      assert s[..|s| - 1] == NatToString(n / 10);
      ParseNatToString(n / 10);
    }
  }

  /** `String(n)` for an integer of magnitude below 10^21 (JavaScript
      switches to exponent form from there on): a minus sign before the
      numeral of a negative number, and no sign otherwise. */
  function IntToString(n: int): (s: string)
    ensures IsNumeral(s)
    ensures s[0] == '-' <==> n < 0
  {
    if n < 0 then "-" + NatToString(-n) else NatToString(n)
  }

  /** A well-formed integer numeral: digits, optionally preceded by a minus sign. */
  predicate IsNumeral(s: string)
  {
    if |s| > 0 && s[0] == '-' then |s| > 1 && AllDigits(s[1..]) else |s| > 0 && AllDigits(s)
  }

  /** The integer a numeral denotes; the partner of IntToString. */
  function ParseInt(s: string): int
    requires IsNumeral(s)
  {
    if s[0] == '-' then -(ParseDigits(s[1..]) as int) else ParseDigits(s)
  }

  lemma IntToStringRoundTrip(n: int)
    ensures IsNumeral(IntToString(n)) && ParseInt(IntToString(n)) == n
  {
    var s := IntToString(n);
    if n < 0 {
      assert s[1..] == NatToString(-n);
      ParseNatToString(-n);
    } else {
      assert s[0] != '-';
      ParseNatToString(n);
    }
  }

  /** Different integers have different numerals. */
  lemma IntToStringInjective(a: int, b: int)
    requires IntToString(a) == IntToString(b)
    ensures a == b
  {
    IntToStringRoundTrip(a);
    IntToStringRoundTrip(b);
  }

  /** Which values count as false, told by their template-literal text: the
      fallback of `x || d` is taken for `undefined`, `null`, `false`, the
      number 0 and the empty string, and for nothing else. */
  lemma TruthyByText(v: JsValue)
    ensures v.Undefined? || v.Null? ==> !Truthy(v)
    ensures v.Bool? ==> (Truthy(v) <==> ToText(v) == "true")
    ensures v.Num? ==> (Truthy(v) <==> ToText(v) != "0")
    ensures v.Str? ==> (Truthy(v) <==> ToText(v) != "")
  {
    if v.Num? {
      assert IntToString(0) == "0";
      if ToText(v) == "0" {
        IntToStringInjective(v.n, 0);
      }
    }
  }

  /** The text a value becomes inside a template literal. */
  function ToText(v: JsValue): (s: string)
    ensures Truthy(v) ==> s != ""
  {
    match v
    case Undefined => "undefined"
    case Null => "null"
    case Bool(b) => if b then "true" else "false"
    case Num(n) => IntToString(n)
    case Str(s) => s
  }

  /** `${v || fallback}`: the value's own text when it is truthy, the fallback otherwise. */
  function OrElse(v: JsValue, fallback: string): (s: string)
    ensures Truthy(v) ==> s == ToText(v)
    ensures !Truthy(v) ==> s == fallback
    ensures fallback != "" ==> s != ""
  {
    if Truthy(v) then ToText(v) else fallback
  }
}

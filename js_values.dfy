/** JavaScript values as the client's query functions receive them, limited to
    the TypeScript types they declare: `undefined`, strings, integral numbers and
    arrays of those. Truthiness and `toString` are stated exactly, and decimal
    parsing is given as the partner of `Number.prototype.toString`. */
module JsValues {

  /** `undefined` (None) or a value (Some). */
  datatype Option<+T> = None | Some(value: T) {
    /** What a JavaScript default parameter does with an omitted argument. */
    function GetOr(default: T): T {
      match this
      case Some(v) => v
      case None => default
    }
  }

  /** `string | number`, with numbers restricted to integers. */
  datatype Scalar = Str(s: string) | Num(n: int)

  /** `string | number | (string | number)[]` */
  datatype Mixed = Single(x: Scalar) | List(items: seq<Scalar>)

  /** JavaScript truthiness: `""` and `0` are falsy, every other string and number is truthy. */
  predicate ScalarTruthy(x: Scalar) {
    match x
    case Str(s) => s != ""
    case Num(n) => n != 0
  }

  /** Every array, even `[]`, is an object and therefore truthy. */
  predicate MixedTruthy(m: Mixed) {
    match m
    case Single(x) => ScalarTruthy(x)
    case List(_) => true
  }

  /** Truthiness of optional fields: `undefined` is falsy. */
  predicate Truthy(o: Option<Scalar>) {
    o.Some? && ScalarTruthy(o.value)
  }

  predicate TruthyMixed(o: Option<Mixed>) {
    o.Some? && MixedTruthy(o.value)
  }

  predicate TruthyString(o: Option<string>) {
    o.Some? && o.value != ""
  }

  /** `toString()` (and `String(x)`, and template-literal interpolation) of a scalar. */
  function ToString(x: Scalar): string {
    match x
    case Str(s) => s
    case Num(n) => IntToString(n)
  }

  function DigitChar(d: nat): char
    requires d < 10
  {
    ('0' as int + d) as char
  }

  /** Decimal digits of `n`, most significant first, without leading zeros. */
  function NatToString(n: nat): string
    decreases n
  {
    if n < 10 then [DigitChar(n)] else NatToString(n / 10) + [DigitChar(n % 10)]
  }

  /** `Number.prototype.toString()` on an integer: an optional minus sign and the digits. */
  function IntToString(n: int): string {
    if n < 0 then "-" + NatToString(-n) else NatToString(n)
  }

  predicate IsDigit(c: char) {
    '0' <= c <= '9'
  }

  function DigitValue(c: char): nat {
    if IsDigit(c) then c as int - '0' as int else 0
  }

  /** Reads a string of decimal digits back as a number. */
  function ParseNat(s: string): nat
    decreases |s|
  {
    if s == [] then 0 else ParseNat(s[..|s| - 1]) * 10 + DigitValue(s[|s| - 1])
  }

  /** The inverse of IntToString: an optional minus sign followed by digits. */
  function ParseInt(s: string): int {
    if |s| > 0 && s[0] == '-' then -(ParseNat(s[1..]) as int) else ParseNat(s)
  }

  /** The decimal form of a natural number is a non-empty digit string that reads back as it. */
  lemma {:induction false} NatToStringDigits(n: nat)
    ensures |NatToString(n)| >= 1
    ensures forall i :: 0 <= i < |NatToString(n)| ==> IsDigit(NatToString(n)[i])
    ensures ParseNat(NatToString(n)) == n
  {
    if n >= 10 {
      NatToStringDigits(n / 10);
      var s := NatToString(n / 10);
      var t := s + [DigitChar(n % 10)];
      assert t[..|t| - 1] == s;
      assert forall i :: 0 <= i < |t| ==> IsDigit(t[i]) by {
        forall i | 0 <= i < |t| ensures IsDigit(t[i]) {
          if i < |s| { assert t[i] == s[i]; }
        }
      }
    }
  }

  /** `toString` of an integer is decimal: parsing it gives the integer back. */
  lemma {:induction false} IntToStringRoundTrip(n: int)
    ensures ParseInt(IntToString(n)) == n
  {
    if n < 0 {
      NatToStringDigits(-n);
      var s := "-" + NatToString(-n);
      assert s[1..] == NatToString(-n);
    } else {
      NatToStringDigits(n);
      assert IsDigit(NatToString(n)[0]);
    }
  }

  /** The decimal form of an integer is never empty and never holds a comma. */
  lemma {:induction false} IntToStringNoComma(n: int)
    ensures IntToString(n) != ""
    ensures ',' !in IntToString(n)
  {
    var m: nat := if n < 0 then -n else n;
    NatToStringDigits(m);
    var d := NatToString(m);
    assert forall i :: 0 <= i < |d| ==> d[i] != ',' by {
      forall i | 0 <= i < |d| ensures d[i] != ',' {
        assert IsDigit(d[i]);
      }
    }
    if n < 0 {
      var s := "-" + d;
      assert forall i :: 0 <= i < |s| ==> s[i] != ',' by {
        forall i | 0 <= i < |s| ensures s[i] != ',' {
          if i > 0 { assert s[i] == d[i - 1]; }
        }
      }
    }
  }

  /** Only the empty string has an empty `toString`; in particular `0` becomes `"0"`. */
  lemma ToStringEmpty(x: Scalar)
    ensures ToString(x) == "" <==> x == Str("")
    ensures ToString(Num(0)) == "0"
  {
    if x.Num? { IntToStringNoComma(x.n); }
  }
}

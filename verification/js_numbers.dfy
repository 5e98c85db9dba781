/** The few JavaScript number conversions the service relies on: `Number(v)`,
    truthiness of a number, `parseInt(s)` and `n.toString()`. Numbers are
    integers or NaN here; fractional values are not modelled. */
module JsNumbers {

  /** A JavaScript number: an integer or NaN. */
  datatype JsNumber = Finite(n: int) | NaN

  /** A raw field as a provider may send it. `Other` is any value whose
      numeric coercion is NaN (an object such as `{ total: 1000 }`, a
      non-numeric string). */
  datatype JsValue = Undefined | Null | Number(v: JsNumber) | Other

  /** `Number(v)` */
  function ToNumber(v: JsValue): (r: JsNumber)
    ensures r.Finite? <==> v.Null? || (v.Number? && v.v.Finite?)
    ensures v.Null? ==> r == Finite(0)
    ensures v.Number? ==> r == v.v
  {
    match v
    case Undefined => NaN
    case Null => Finite(0)
    case Number(x) => x
    case Other => NaN
  }

  /** A number is truthy unless it is 0 or NaN. */
  predicate Truthy(x: JsNumber)
  {
    x.Finite? && x.n != 0
  }

  /** `x + 1` */
  function Increment(x: JsNumber): (r: JsNumber)
    ensures r.Finite? <==> x.Finite?
    ensures x.Finite? ==> r.n == x.n + 1
  {
    if x.Finite? then Finite(x.n + 1) else NaN
  }

  predicate IsDigit(c: char) { '0' <= c <= '9' }

  predicate IsSpace(c: char) { c == ' ' || c == '\t' || c == '\n' || c == '\r' }

  function DigitChar(d: nat): (c: char)
    requires d < 10
    ensures IsDigit(c) && c as int - '0' as int == d
  {
    ('0' as int + d) as char
  }

  /** The decimal digits of `n`, most significant first, no leading zeros. */
  function Digits(n: nat): (s: string)
    ensures |s| > 0
    decreases n
  {
    if n < 10 then [DigitChar(n)] else Digits(n / 10) + [DigitChar(n % 10)]
  }

  /** `n.toString()` */
  function ToDecimal(x: JsNumber): string
  {
    match x
    case NaN => "NaN"
    case Finite(n) => if n < 0 then "-" + Digits(-n) else Digits(n)
  }

  /** The value of a string of decimal digits. */
  function DigitsValue(s: string): nat
    requires forall i :: 0 <= i < |s| ==> IsDigit(s[i])
  {
    if s == [] then 0
    else
      assert IsDigit(s[|s| - 1]);
      DigitsValue(s[..|s| - 1]) * 10 + (s[|s| - 1] as int - '0' as int)
  }

  /** The longest prefix of `s` made of decimal digits. */
  function DigitPrefix(s: string): (p: string)
    ensures |p| <= |s| && p == s[..|p|]
    ensures forall i :: 0 <= i < |p| ==> IsDigit(p[i])
    ensures |p| < |s| ==> !IsDigit(s[|p|])
  {
    if s == [] || !IsDigit(s[0]) then [] else [s[0]] + DigitPrefix(s[1..])
  }

  /** `s` with its leading white space removed. */
  function TrimStart(s: string): (t: string)
    ensures |t| <= |s| && t == s[|s| - |t|..]
    ensures t != [] ==> !IsSpace(t[0])
  {
    if s != [] && IsSpace(s[0]) then TrimStart(s[1..]) else s
  }

  /** `parseInt(s)` with radix 10: leading white space, an optional sign, then
      the longest run of digits; no digit at all gives NaN. */
  function ParseInt(s: string): JsNumber
  {
    var t := TrimStart(s);
    var signed := t != [] && (t[0] == '-' || t[0] == '+');
    var body := if signed then t[1..] else t;
    var d := DigitPrefix(body);
    if d == [] then NaN
    else if signed && t[0] == '-' then Finite(-(DigitsValue(d) as int))
    else Finite(DigitsValue(d))
  }

  lemma {:induction false} DigitsAreDigits(n: nat)
    ensures forall i :: 0 <= i < |Digits(n)| ==> IsDigit(Digits(n)[i])
    decreases n
  {
    if n >= 10 {
      DigitsAreDigits(n / 10);
    }
  }

  lemma {:induction false} DigitsValueOfDigits(n: nat)
    ensures forall i :: 0 <= i < |Digits(n)| ==> IsDigit(Digits(n)[i])
    ensures DigitsValue(Digits(n)) == n
    decreases n
  {
    DigitsAreDigits(n);
    if n >= 10 {
      DigitsValueOfDigits(n / 10);
      var s := Digits(n);
      assert s[..|s| - 1] == Digits(n / 10);
    }
  }

  /** A run made only of digits is its own digit prefix. */
  lemma {:induction false} DigitPrefixOfDigits(s: string)
    requires forall i :: 0 <= i < |s| ==> IsDigit(s[i])
    ensures DigitPrefix(s) == s
  {
    if s != [] {
      DigitPrefixOfDigits(s[1..]);
    }
  }

  /** Text that starts with neither white space nor a sign is parsed as its
      digit prefix. */
  lemma {:induction false} ParseIntUnsigned(s: string)
    requires s != [] && !IsSpace(s[0]) && s[0] != '-' && s[0] != '+'
    ensures ParseInt(s) == if DigitPrefix(s) == [] then NaN else Finite(DigitsValue(DigitPrefix(s)))
  {
    assert TrimStart(s) == s;
  }

  /** A minus sign followed by digits is parsed as the negated value of the
      digits. */
  lemma {:induction false} ParseIntNegative(d: string)
    requires d != [] && forall i :: 0 <= i < |d| ==> IsDigit(d[i])
    ensures ParseInt("-" + d) == Finite(-(DigitsValue(d) as int))
  {
    var s := "-" + d;
    assert TrimStart(s) == s;
    assert s[1..] == d;
    DigitPrefixOfDigits(d);
  }

  lemma {:induction false} ParseIntOfDigits(m: nat)
    ensures ParseInt(Digits(m)) == Finite(m)
  {
    var d := Digits(m);
    DigitsValueOfDigits(m);
    DigitPrefixOfDigits(d);
    assert IsDigit(d[0]);
    ParseIntUnsigned(d);
  }

  lemma {:induction false} ParseIntOfNegatedDigits(m: nat)
    ensures ParseInt("-" + Digits(m)) == Finite(-(m as int))
  {
    var d := Digits(m);
    DigitsValueOfDigits(m);
    assert DigitsValue(d) == m;
    ParseIntNegative(d);
  }

  /** The text "NaN" has no digit prefix and parses as NaN. */
  lemma {:induction false} ParseIntOfNaNText()
    ensures ParseInt("NaN") == NaN
  {
    ParseIntUnsigned("NaN");
    assert DigitPrefix("NaN") == [];
  }

  /** `parseInt(x.toString())` gives back `x`, for every integer and for NaN:
      a counter written as text is read back unchanged. */
  lemma {:induction false} ParseIntOfToDecimal(x: JsNumber)
    ensures ParseInt(ToDecimal(x)) == x
  {
    match x
    case NaN =>
      assert ToDecimal(x) == "NaN";
      ParseIntOfNaNText();
    case Finite(n) =>
      if n < 0 {
        var m: nat := -n;
        assert ToDecimal(x) == "-" + Digits(m);
        ParseIntOfNegatedDigits(m);
      } else {
        assert ToDecimal(x) == Digits(n);
        ParseIntOfDigits(n);
      }
  }
}

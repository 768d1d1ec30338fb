/** JavaScript values as they travel through the request handlers: request bodies,
    ORM rows and API responses are all plain objects, modelled as maps from
    field name to value. */
module JsValues {
  import opened Wrappers

  /** A JavaScript value. `Date(ms)` is a `Date` object holding epoch milliseconds,
      `NaN` the number NaN, `Other` any other object or array (always truthy). */
  datatype Value =
    | Undefined
    | Null
    | Bool(b: bool)
    | Num(n: real)
    | NaN
    | Str(s: string)
    | Date(ms: int)
    | Other

  /** A plain object: a request body, a stored row or a response object. */
  type Row = map<string, Value>

  /** JavaScript truthiness (`!!v`). */
  predicate Truthy(v: Value) {
    match v
    case Undefined => false
    case Null => false
    case Bool(b) => b
    case Num(n) => n != 0.0
    case NaN => false
    case Str(s) => s != ""
    case Date(_) => true
    case Other => true
  }

  /** Property access `o[f]`: a missing property reads as `undefined`. */
  function Get(o: Row, f: string): (v: Value)
    ensures f !in o ==> v == Undefined
  {
    if f in o then o[f] else Undefined
  }

  /** Object spread `{...a, ...b}`: every own property of `b` wins, even one
      whose value is `undefined`. */
  function Spread(a: Row, b: Row): (r: Row)
    ensures r.Keys == a.Keys + b.Keys
    ensures forall f :: f in b ==> r[f] == b[f]
    ensures forall f :: f in a && f !in b ==> r[f] == a[f]
  {
    a + b
  }

  predicate IsDigit(c: char) {
    '0' <= c <= '9'
  }

  /** The number a string of decimal digits denotes. */
  function DigitsValue(s: string): (n: nat)
    requires forall i :: 0 <= i < |s| ==> IsDigit(s[i])
    decreases |s|
  {
    if s == [] then 0
    else
      assert IsDigit(s[|s| - 1]);
      DigitsValue(s[..|s| - 1]) * 10 + (s[|s| - 1] as int - '0' as int)
  }

  /** Number of leading decimal digits of `s`. */
  function DigitRun(s: string): (k: nat)
    ensures k <= |s|
    ensures forall i :: 0 <= i < k ==> IsDigit(s[i])
    ensures k < |s| ==> !IsDigit(s[k])
  {
    if s != [] && IsDigit(s[0]) then 1 + DigitRun(s[1..]) else 0
  }

  predicate IsSpace(c: char) {
    c == ' ' || c == '\t' || c == '\n' || c == '\r'
  }

  function TrimStart(s: string): (r: string)
    ensures |r| <= |s| && r == s[|s| - |r|..]
    ensures r != [] ==> !IsSpace(r[0])
  {
    if s != [] && IsSpace(s[0]) then TrimStart(s[1..]) else s
  }

  /** The value of the decimal digits `u` starts with, or `None` (NaN) when
      it does not start with a digit. */
  function LeadingNumber(u: string): (r: Option<int>)
    ensures r.None? <==> u == [] || !IsDigit(u[0])
    ensures r.Some? ==> r.value >= 0
  {
    var k := DigitRun(u);
    if k == 0 then None else Some(DigitsValue(u[..k]))
  }

  /** `parseInt(s, 10)`: skips leading white space, reads an optional sign and
      then as many decimal digits as follow; without any digit the result is
      NaN, modelled as `None`. */
  function ParseInt(s: string): Option<int>
  {
    var t := TrimStart(s);
    if t != [] && t[0] == '-' then
      match LeadingNumber(t[1..])
      case Some(n) => Some(-n)
      case None => None
    else if t != [] && t[0] == '+' then LeadingNumber(t[1..])
    else LeadingNumber(t)
  }

  /** `parseInt` reads exactly the decimal value of a string of digits, and
      stops at the first character that is not a digit. */
  lemma ParseIntDigits(s: string, rest: string)
    requires s != [] && forall i :: 0 <= i < |s| ==> IsDigit(s[i])
    requires rest == [] || !IsDigit(rest[0])
    ensures ParseInt(s + rest) == Some(DigitsValue(s))
  {
    var u := s + rest;
    assert u[0] == s[0];
    ParseIntDigitStart(u);
    LeadingDigits(s, rest);
  }

  /** A string that starts with a digit has no blank or sign to skip. */
  lemma ParseIntDigitStart(u: string)
    requires u != [] && IsDigit(u[0])
    ensures ParseInt(u) == LeadingNumber(u)
  {
    assert TrimStart(u) == u;
  }

  /** The leading digits stop where the first non-digit begins. */
  lemma LeadingDigits(s: string, rest: string)
    requires s != [] && forall i :: 0 <= i < |s| ==> IsDigit(s[i])
    requires rest == [] || !IsDigit(rest[0])
    ensures LeadingNumber(s + rest) == Some(DigitsValue(s))
  {
    DigitRunPrefix(s, rest);
    assert (s + rest)[..|s|] == s;
  }

  lemma {:induction false} DigitRunPrefix(s: string, rest: string)
    requires forall i :: 0 <= i < |s| ==> IsDigit(s[i])
    requires rest == [] || !IsDigit(rest[0])
    ensures DigitRun(s + rest) == |s|
    decreases |s|
  {
    if s != [] {
      assert (s + rest)[1..] == s[1..] + rest;
      DigitRunPrefix(s[1..], rest);
    } else {
      assert s + rest == rest;
    }
  }

  /** The default page and limit strings parse to 1 and 10. */
  lemma ParseDefaults()
    ensures ParseInt("1") == Some(1)
    ensures ParseInt("10") == Some(10)
  {
    DefaultDigits();
    ParseIntDigits("1", "");
    ParseIntDigits("10", "");
  }

  /** The digits of the default strings. */
  lemma DefaultDigits()
    ensures "1" + "" == "1" && "10" + "" == "10"
    ensures DigitsValue("1") == 1 && DigitsValue("10") == 10
  {
    assert "10"[..1] == "1";
    assert "1"[..0] == "";
  }

  /** A string that does not start with white space, a sign or a digit parses
      as NaN. */
  lemma ParseIntNoDigits(s: string)
    requires s != [] && !IsSpace(s[0]) && !IsDigit(s[0]) && s[0] != '-' && s[0] != '+'
    ensures ParseInt(s) == None
  {
  }

  /** The value of one decimal digit, or `None` for any other character. */
  function DigitNumber(c: char): Option<real> {
    match c
    case '0' => Some(0.0) case '1' => Some(1.0) case '2' => Some(2.0) case '3' => Some(3.0)
    case '4' => Some(4.0) case '5' => Some(5.0) case '6' => Some(6.0) case '7' => Some(7.0)
    case '8' => Some(8.0) case '9' => Some(9.0)
    case _ => None
  }

  /** `Number(s)` for a string of decimal digits, the empty string giving 0;
      `None` (NaN) for any other string. */
  function TextNumber(s: string): (r: Option<real>)
    decreases |s|
  {
    if s == [] then Some(0.0)
    else
      match (TextNumber(s[..|s| - 1]), DigitNumber(s[|s| - 1]))
      case (Some(v), Some(d)) => Some(v * 10.0 + d)
      case _ => None
  }

  /** A digit converts to the code distance from '0'. */
  lemma DigitNumberValue(c: char)
    ensures DigitNumber(c).Some? <==> IsDigit(c)
    ensures DigitNumber(c).Some? ==> DigitNumber(c).value == (c as int - '0' as int) as real
  {
  }

  /** A string converts exactly when every character is a decimal digit, and
      then to the value `parseInt` reads from it. */
  lemma {:induction false} TextNumberDigits(s: string)
    ensures TextNumber(s).Some? <==> forall i :: 0 <= i < |s| ==> IsDigit(s[i])
    ensures TextNumber(s).Some? ==> TextNumber(s).value == DigitsValue(s) as real
  {
    if s != [] {
      var p, c := s[..|s| - 1], s[|s| - 1];
      TextNumberDigits(p);
      DigitNumberValue(c);
      assert forall i :: 0 <= i < |p| ==> p[i] == s[i];
      if forall i :: 0 <= i < |s| ==> IsDigit(s[i]) {
        assert DigitsValue(s) == DigitsValue(p) * 10 + (c as int - '0' as int);
      }
    }
  }

  /** `Number(v)`, the conversion `*` applies to its operands, as a real or
      `None` for NaN. Strings convert when they are empty (0) or consist of
      decimal digits only. */
  function ToNumber(v: Value): (r: Option<real>)
  {
    match v
    case Undefined => None
    case Null => Some(0.0)
    case Bool(b) => Some(if b then 1.0 else 0.0)
    case Num(n) => Some(n)
    case NaN => None
    case Str(s) => TextNumber(s)
    case Date(ms) => Some(ms as real)
    case Other => None
  }

  /** The product of two converted operands; NaN in either gives NaN. */
  function Product(p: Option<real>, q: Option<real>): (r: Option<real>)
    ensures r.Some? <==> p.Some? && q.Some?
    ensures r.Some? ==> r.value == p.value * q.value
  {
    if p.Some? && q.Some? then Some(p.value * q.value) else None
  }

  /** The number value an arithmetic result denotes: a real, or NaN. */
  function NumberValue(p: Option<real>): (v: Value)
    ensures ToNumber(v) == p
  {
    if p.Some? then Num(p.value) else NaN
  }

  /** The JavaScript `*` operator: both operands are converted to numbers and
      multiplied; NaN in either gives NaN. */
  function Times(x: Value, y: Value): (r: Value)
    ensures r.Num? || r == NaN
    ensures r.Num? <==> ToNumber(x).Some? && ToNumber(y).Some?
    ensures r.Num? ==> r.n == ToNumber(x).value * ToNumber(y).value
  {
    NumberValue(Product(ToNumber(x), ToNumber(y)))
  }

  /** `a * b * c`. The product `a * b` is already a number, which the second
      `*` converts to itself, so the three converted operands multiply
      directly; `NestedTimes` shows this is `(a * b) * c`. */
  function TimesThree(a: Value, b: Value, c: Value): (r: Value)
    ensures r.Num? || r == NaN
    ensures r.Num? <==> ToNumber(a).Some? && ToNumber(b).Some? && ToNumber(c).Some?
    ensures r.Num? ==> r.n == ToNumber(a).value * ToNumber(b).value * ToNumber(c).value
  {
    NumberValue(Product(Product(ToNumber(a), ToNumber(b)), ToNumber(c)))
  }

  /** Converting the result of `*` gives the product of the converted
      operands back. */
  lemma NumberOfTimes(x: Value, y: Value)
    ensures ToNumber(Times(x, y)) == Product(ToNumber(x), ToNumber(y))
  {
  }

  /** `TimesThree` is JavaScript's left-to-right `(a * b) * c`. */
  lemma NestedTimes(a: Value, b: Value, c: Value)
    ensures Times(Times(a, b), c) == TimesThree(a, b, c)
  {
    NumberOfTimes(a, b);
  }

  /** Three numbers multiply as reals. */
  lemma TimesThreeOfNumbers(a: real, b: real, c: real)
    ensures TimesThree(Num(a), Num(b), Num(c)) == Num(a * b * c)
  {
  }
}

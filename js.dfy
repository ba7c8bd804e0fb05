/** The loosely typed JSON values that reach the components (request bodies,
    fetched rows) and the JavaScript coercions applied to them: truthiness,
    `Number(v)` as used by `<` and `isNaN`, and `parseFloat`. */
module Js {
  import opened Strings

  /** A JSON field: absent (`undefined`), `null`, a boolean, a number or a string. */
  datatype Value = Missing | Null | Bool(b: bool) | Num(x: real) | Str(s: string)

  /** A JavaScript number as far as the components can tell: a finite value or NaN. */
  datatype Number = Finite(x: real) | NaN

  /** A JSON object: `obj.key` is `Missing` when the key is absent. */
  type Object = map<string, Value>

  function Get(o: Object, key: string): Value
  {
    if key in o then o[key] else Missing
  }

  /** `!!v`: undefined, null, false, 0 and "" are falsy. */
  predicate Truthy(v: Value)
  {
    match v
    case Missing => false
    case Null => false
    case Bool(b) => b
    case Num(x) => x != 0.0
    case Str(s) => s != ""
  }

  /** ECMAScript's WhiteSpace and LineTerminator: tab, vertical tab, form feed,
      U+FEFF, every space separator (Zs) and the four line terminators. */
  predicate IsWhitespace(c: char)
  {
    c == '\t' || c == '\n' || c == '\U{0B}' || c == '\U{0C}' || c == '\r' || c == '\U{FEFF}'
    || IsSpaceSeparator(c) || c == '\U{2028}' || c == '\U{2029}'
  }

  /** The Unicode category Zs. */
  predicate IsSpaceSeparator(c: char)
  {
    c == ' ' || c == '\U{A0}' || c == '\U{1680}' || ('\U{2000}' <= c <= '\U{200A}')
    || c == '\U{202F}' || c == '\U{205F}' || c == '\U{3000}'
  }

  function TrimStart(s: string): (r: string)
    ensures r == [] || !IsWhitespace(r[0])
    ensures |r| <= |s| && r == s[|s| - |r|..]
  {
    if s != [] && IsWhitespace(s[0]) then TrimStart(s[1..]) else s
  }

  function TrimEnd(s: string): (r: string)
    ensures r == [] || !IsWhitespace(r[|r| - 1])
    ensures |r| <= |s| && r == s[..|r|]
  {
    if s != [] && IsWhitespace(s[|s| - 1]) then TrimEnd(s[..|s| - 1]) else s
  }

  /** The end of the run of digits that starts at `i`. */
  function DigitRun(s: string, i: nat): (j: nat)
    requires i <= |s|
    ensures i <= j <= |s|
    ensures forall k :: i <= k < j ==> IsDigit(s[k])
    ensures j < |s| ==> !IsDigit(s[j])
    decreases |s| - i
  {
    if i < |s| && IsDigit(s[i]) then DigitRun(s, i + 1) else i
  }

  function Pow10(k: nat): (p: real)
    ensures p >= 1.0
  {
    if k == 0 then 1.0 else 10.0 * Pow10(k - 1)
  }

  /** The result of reading a decimal numeral at the front of a string. */
  datatype Scan = NoNumeral | Numeral(value: real, length: nat)

  /** The longest prefix of the form `[+-]digits[.digits]` holding at least one digit. */
  function ScanDecimal(s: string): (r: Scan)
    ensures r.Numeral? ==> 0 < r.length <= |s|
  {
    var start := if |s| > 0 && (s[0] == '+' || s[0] == '-') then 1 else 0;
    var intEnd := DigitRun(s, start);
    var hasPoint := intEnd < |s| && s[intEnd] == '.';
    var fracEnd := if hasPoint then DigitRun(s, intEnd + 1) else intEnd;
    var intDigits := s[start..intEnd];
    var fracDigits := if hasPoint then s[intEnd + 1..fracEnd] else "";
    if |intDigits| + |fracDigits| == 0 then NoNumeral
    else
      var magnitude := DigitsValue(intDigits) as real + DigitsValue(fracDigits) as real / Pow10(|fracDigits|);
      Numeral(if start == 1 && s[0] == '-' then -magnitude else magnitude, fracEnd)
  }

  /** `Number(s)`: blank is 0, a whole numeral is its value, anything else NaN. */
  function StringToNumber(s: string): Number
  {
    var t := TrimEnd(TrimStart(s));
    if t == "" then Finite(0.0)
    else match ScanDecimal(t)
      case Numeral(v, n) => if n == |t| then Finite(v) else NaN
      case NoNumeral => NaN
  }

  /** `Number(v)`, the coercion behind `v < 0` and `isNaN(v)`. */
  function ToNumber(v: Value): Number
  {
    match v
    case Missing => NaN
    case Null => Finite(0.0)
    case Bool(b) => Finite(if b then 1.0 else 0.0)
    case Num(x) => Finite(x)
    case Str(s) => StringToNumber(s)
  }

  /** `v < 0`. */
  predicate IsNegative(v: Value)
  {
    ToNumber(v).Finite? && ToNumber(v).x < 0.0
  }

  /** `isNaN(v)`. */
  predicate IsNaN(v: Value)
  {
    ToNumber(v).NaN?
  }

  /** `parseFloat(v)`: the numeral at the front of `String(v)`, after blanks. */
  function ParseFloat(v: Value): Number
  {
    match v
    case Num(x) => Finite(x)
    case Str(s) =>
      (match ScanDecimal(TrimStart(s))
       case Numeral(x, _) => Finite(x)
       case NoNumeral => NaN)
    case _ => NaN
  }

  /** `parseFloat(v) || 0`: NaN becomes 0. */
  function ParseFloatOrZero(v: Value): real
  {
    match ParseFloat(v)
    case Finite(x) => x
    case NaN => 0.0
  }

  lemma {:induction false} DigitRunToEnd(s: string, i: nat)
    requires i <= |s| && forall k :: i <= k < |s| ==> IsDigit(s[k])
    ensures DigitRun(s, i) == |s|
    decreases |s| - i
  {
    if i < |s| { DigitRunToEnd(s, i + 1); }
  }

  /** A numeral made of digits reads as its value. */
  lemma ScanDigits(s: string)
    requires s != [] && AllDigits(s)
    ensures ScanDecimal(s) == Numeral(DigitsValue(s) as real, |s|)
  {
    DigitRunToEnd(s, 0);
    assert s[0..|s|] == s;
  }

  /** A digit is no blank. */
  lemma DigitIsNoBlank(c: char)
    requires IsDigit(c)
    ensures !IsWhitespace(c)
  {
  }

  /** A digit string has no blanks to trim. */
  lemma DigitsUntrimmed(s: string)
    requires s != [] && AllDigits(s)
    ensures TrimStart(s) == s && TrimEnd(s) == s
  {
    DigitIsNoBlank(s[0]);
    DigitIsNoBlank(s[|s| - 1]);
  }

  /** A digit string reads as its value under `parseFloat` and `Number`. */
  lemma DigitsParse(s: string)
    requires s != [] && AllDigits(s)
    ensures ParseFloat(Str(s)) == Finite(DigitsValue(s) as real)
    ensures ToNumber(Str(s)) == Finite(DigitsValue(s) as real)
  {
    DigitsUntrimmed(s);
    ScanDigits(s);
  }

  /** What `String(n)` prints, `parseFloat` and `Number` read back. */
  lemma NatStringParses(n: nat)
    ensures ParseFloat(Str(NatToString(n))) == Finite(n as real)
    ensures ToNumber(Str(NatToString(n))) == Finite(n as real)
  {
    NatToStringRoundTrip(n);
    DigitsParse(NatToString(n));
  }

  /** After `parseFloat(x) || 0` a value is never NaN, and `v < 0` is plain comparison. */
  /** A leading blank, any ECMAScript whitespace such as U+3000, changes neither conversion. */
  lemma LeadingBlankIgnored(c: char, s: string)
    requires IsWhitespace(c)
    ensures StringToNumber([c] + s) == StringToNumber(s)
    ensures ParseFloat(Str([c] + s)) == ParseFloat(Str(s))
  {
    TrimStartBlank(c, s);
  }

  lemma TrimStartBlank(c: char, s: string)
    requires IsWhitespace(c)
    ensures TrimStart([c] + s) == TrimStart(s)
  {
    assert ([c] + s)[1..] == s;
  }

  lemma DefaultedIsNumber(v: Value)
    ensures !IsNaN(Num(ParseFloatOrZero(v)))
    ensures IsNegative(Num(ParseFloatOrZero(v))) <==> ParseFloat(v).Finite? && ParseFloat(v).x < 0.0
  {
  }
}

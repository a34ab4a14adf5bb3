/**
 * The JavaScript values the command line front end inspects: option values
 * read from a configuration object, their truthiness, their conversion to
 * text, and the decimal rendering of counters in the summary lines.
 */
module JsValues {

  datatype Option<T> = None | Some(value: T)

  /**
   * An option value. JavaScript numbers are modelled by integers; nested
   * objects are kept only as far as their own fields.
   */
  datatype Value =
    | Undefined
    | Null
    | Bool(b: bool)
    | Num(n: int)
    | Str(s: string)
    | Obj(fields: map<string, Value>)

  /** A configuration object: option names mapped to option values. */
  type Config = map<string, Value>

  /** JavaScript truthiness: false, 0, "", null and undefined are falsy. */
  predicate Truthy(v: Value)
    ensures !Truthy(v) <==> v in {Undefined, Null, Bool(false), Num(0), Str("")}
  {
    match v
    case Undefined => false
    case Null => false
    case Bool(b) => b
    case Num(n) => n != 0
    case Str(s) => s != ""
    case Obj(_) => true
  }

  /** `config[key]`: a property the object does not have reads as undefined. */
  function Lookup(c: Config, key: string): (v: Value)
    ensures key in c ==> v == c[key]
    ensures Truthy(v) ==> key in c
  {
    if key in c then c[key] else Undefined
  }

  predicate IsDigit(ch: char) {
    '0' <= ch <= '9'
  }

  predicate AllDigits(s: string) {
    forall i :: 0 <= i < |s| ==> IsDigit(s[i])
  }

  function DigitChar(d: nat): (ch: char)
    requires d < 10
    ensures IsDigit(ch) && ch as int - '0' as int == d
  {
    ('0' as int + d) as char
  }

  /** Decimal text of a non-negative number, as `String(n)` writes it. */
  function NatToString(n: nat): (s: string)
    ensures 1 <= |s| && AllDigits(s)
    ensures s[0] == '0' <==> n == 0
    decreases n
  {
    if n < 10 then [DigitChar(n)] else NatToString(n / 10) + [DigitChar(n % 10)]
  }

  /** The number a string of decimal digits denotes. */
  function DecimalValue(s: string): nat
    requires AllDigits(s)
    decreases |s|
  {
    if s == [] then 0
    else 10 * DecimalValue(s[..|s| - 1]) + (s[|s| - 1] as int - '0' as int)
  }

  lemma {:induction false} DecimalRoundTrip(n: nat)
    ensures DecimalValue(NatToString(n)) == n
  {
    if n >= 10 {
      var s := NatToString(n / 10);
      var t := s + [DigitChar(n % 10)];
      assert t[..|t| - 1] == s;
      DecimalRoundTrip(n / 10);
    }
  }

  /** The longest prefix of `s` made of decimal digits. */
  function LeadingDigits(s: string): (p: string)
    ensures p <= s && AllDigits(p)
    decreases |s|
  {
    if s != [] && IsDigit(s[0]) then [s[0]] + LeadingDigits(s[1..]) else []
  }

  lemma {:induction false} LeadingDigitsOfNumber(digits: string, rest: string)
    requires AllDigits(digits)
    requires rest != [] && !IsDigit(rest[0])
    ensures LeadingDigits(digits + rest) == digits
    decreases |digits|
  {
    if digits == [] {
      assert digits + rest == rest;
    } else {
      assert (digits + rest)[1..] == digits[1..] + rest;
      LeadingDigitsOfNumber(digits[1..], rest);
    }
  }

  /** Text of a JavaScript number that happens to be an integer. */
  function IntToString(n: int): string {
    if n < 0 then "-" + NatToString(-n) else NatToString(n)
  }

  /** `String(v)` as string concatenation uses it. */
  function Display(v: Value): (s: string)
    ensures v.Str? ==> s == v.s
    ensures v.Num? && v.n >= 0 ==> AllDigits(s) && DecimalValue(s) == v.n
    ensures !v.Str? ==> s != ""
  {
    match v
    case Undefined => "undefined"
    case Null => "null"
    case Bool(b) => if b then "true" else "false"
    case Num(n) =>
      if n >= 0 then (DecimalRoundTrip(n); IntToString(n)) else IntToString(n)
    case Str(s) => s
    case Obj(_) => "[object Object]"
  }

  /** `s.match(/<suffix>$/)` for a literal suffix. */
  predicate EndsWith(s: string, suffix: string) {
    |suffix| <= |s| && s[|s| - |suffix|..] == suffix
  }

  lemma EndsWithMeansConcatenation(s: string, suffix: string)
    ensures EndsWith(s, suffix) <==> exists t :: s == t + suffix
  {
    if EndsWith(s, suffix) {
      assert s == s[..|s| - |suffix|] + suffix;
    }
    forall t | s == t + suffix
      ensures EndsWith(s, suffix)
    {
      assert s[|t|..] == suffix;
    }
  }
}

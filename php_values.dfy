/**
  PHP's loosely typed values, as far as the Easy Digital Downloads integration
  uses them, and the language's built-in tests and conversions it relies on:
  `empty()`, `isset()`, truthiness, reading an array offset, `intval()`,
  WordPress's `absint()` and string conversion for concatenation.
 */
module PhpValues {

  datatype Option<+T> = None | Some(value: T)

  /** A PHP value. An array is a map from key to value; PHP's integer keys are
      written here as their decimal strings, which is how PHP normalises them. */
  datatype Value =
    | Null
    | Bool(b: bool)
    | Int(i: int)
    | Str(s: string)
    | Arr(entries: map<string, Value>)

  /** `empty($v)` for a value that exists: null, false, 0, "", "0" and the empty array. */
  predicate Empty(v: Value) {
    match v
    case Null => true
    case Bool(b) => !b
    case Int(i) => i == 0
    case Str(s) => s == "" || s == "0"
    case Arr(m) => |m| == 0
  }

  /** The truth value PHP gives `$v` in `if ($v)`; `! $v` is its negation. */
  predicate Truthy(v: Value) {
    !Empty(v)
  }

  /** `$m[$k]` read from an array: an unset key reads as null. */
  function Get(m: map<string, Value>, k: string): Value {
    if k in m then m[k] else Null
  }

  /** `isset($m[$k])`: the key is there and its value is not null. */
  predicate IsSet(m: map<string, Value>, k: string) {
    k in m && m[k] != Null
  }

  /** `$v[$k]` on any value: an array gives its entry, anything else gives null. */
  function Index(v: Value, k: string): Value {
    if v.Arr? then Get(v.entries, k) else Null
  }

  /** The characters PHP skips in front of a numeric string: space, \t, \n, \r, \v, \f. */
  predicate IsNumericSpace(c: char) {
    c == ' ' || c == '\t' || c == '\n' || c == '\r' || c as int == 11 || c as int == 12
  }

  predicate IsDigit(c: char) {
    '0' <= c <= '9'
  }

  predicate AllDigits(s: string) {
    forall i :: 0 <= i < |s| ==> IsDigit(s[i])
  }

  function DigitChar(d: nat): (c: char)
    requires d < 10
    ensures IsDigit(c) && c as int - '0' as int == d
  {
    ('0' as int + d) as char
  }

  /** The decimal digits of `n`, most significant first, without leading zeros. */
  function NatToDecimal(n: nat): (s: string)
    ensures |s| > 0 && AllDigits(s)
    ensures |s| > 1 ==> s[0] != '0'
    decreases n
  {
    if n < 10 then [DigitChar(n)] else NatToDecimal(n / 10) + [DigitChar(n % 10)]
  }

  /** PHP's conversion of an integer to a string. */
  function IntToDecimal(n: int): string {
    if n < 0 then "-" + NatToDecimal(-n) else NatToDecimal(n)
  }

  /** The number a string of decimal digits denotes. */
  function DigitsValue(d: string): nat
    requires AllDigits(d)
  {
    if d == [] then 0 else DigitsValue(d[..|d| - 1]) * 10 + (d[|d| - 1] as int - '0' as int)
  }

  /** The longest run of decimal digits that `s` starts with. */
  function DigitPrefix(s: string): (d: string)
    ensures AllDigits(d) && d <= s
    ensures |d| < |s| ==> !IsDigit(s[|d|])
  {
    if |s| > 0 && IsDigit(s[0]) then [s[0]] + DigitPrefix(s[1..]) else []
  }

  function SkipSpaces(s: string): (t: string)
    ensures |t| > 0 ==> !IsNumericSpace(t[0])
  {
    if |s| > 0 && IsNumericSpace(s[0]) then SkipSpaces(s[1..]) else s
  }

  /** `(int)$s` for a string: leading white space, an optional sign, then the
      longest run of decimal digits; a string with no such run gives 0. */
  function StrToInt(s: string): int {
    var t := SkipSpaces(s);
    if |t| > 0 && t[0] == '-' then -(DigitsValue(DigitPrefix(t[1..])) as int)
    else if |t| > 0 && t[0] == '+' then DigitsValue(DigitPrefix(t[1..]))
    else DigitsValue(DigitPrefix(t))
  }

  /** `intval($v)`. */
  function IntVal(v: Value): int {
    match v
    case Null => 0
    case Bool(b) => if b then 1 else 0
    case Int(i) => i
    case Str(s) => StrToInt(s)
    case Arr(m) => if |m| == 0 then 0 else 1
  }

  /** WordPress's `absint($v)`, i.e. `abs(intval($v))`. */
  function AbsInt(v: Value): (n: nat)
    ensures n == IntVal(v) || n == -IntVal(v)
  {
    var i := IntVal(v);
    if i < 0 then -i else i
  }

  /** PHP's conversion of a value to a string, as `.` performs it. */
  function ToStr(v: Value): string {
    match v
    case Null => ""
    case Bool(b) => if b then "1" else ""
    case Int(i) => IntToDecimal(i)
    case Str(s) => s
    case Arr(_) => "Array"
  }

  lemma {:induction false} DigitPrefixOfDigits(s: string)
    requires AllDigits(s)
    ensures DigitPrefix(s) == s
    decreases |s|
  {
    if |s| > 0 {
      DigitPrefixOfDigits(s[1..]);
      assert [s[0]] + s[1..] == s;
    }
  }

  lemma {:induction false} DigitsValueOfDecimal(n: nat)
    ensures DigitsValue(NatToDecimal(n)) == n
    decreases n
  {
    var s := NatToDecimal(n);
    if n >= 10 {
      DigitsValueOfDecimal(n / 10);
      assert s[..|s| - 1] == NatToDecimal(n / 10);
    }
  }

  /** Reading back what PHP writes: `(int)(string)$n == $n` for every integer. */
  lemma DecimalRoundTrip(n: int)
    ensures StrToInt(IntToDecimal(n)) == n
  {
    var m: nat := if n < 0 then -n else n;
    var d := NatToDecimal(m);
    DigitPrefixOfDigits(d);
    DigitsValueOfDecimal(m);
    if n < 0 {
      var s := "-" + d;
      assert SkipSpaces(s) == s;
      assert s[1..] == d;
    } else {
      assert !IsNumericSpace(d[0]) && d[0] != '-' && d[0] != '+';
      assert SkipSpaces(d) == d;
    }
  }

  /** `intval` reads a decimal string back to its number, and `absint` of a
      decimal string of a natural number is that number. */
  lemma IntValOfDecimal(n: int)
    ensures IntVal(Str(IntToDecimal(n))) == n
    ensures n >= 0 ==> AbsInt(Str(IntToDecimal(n))) == n
  {
    DecimalRoundTrip(n);
  }

  /** Distinct integers give distinct strings, so the form fields named after
      them are distinct too. */
  lemma DecimalInjective(m: int, n: int)
    requires m != n
    ensures IntToDecimal(m) != IntToDecimal(n)
  {
    DecimalRoundTrip(m);
    DecimalRoundTrip(n);
  }
}

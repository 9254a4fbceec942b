/**
 * The PHP value semantics the API scripts rely on: decoded JSON values, the `(int)`
 * cast, conversion to string and truthiness.
 */
module PhpValues {
  import opened Wrappers
  import Text

  /** An array key: PHP arrays are keyed by integers or strings. */
  datatype Key = IntKey(i: int) | StrKey(s: string)

  /**
   * A value `json_decode(..., true)` can produce (JSON objects and lists both become
   * arrays). Floating-point numbers are not modelled.
   */
  datatype Value = Null | Bool(b: bool) | Int(i: int) | Str(s: string) | Arr(entries: map<Key, Value>)

  predicate IsDigit(c: char)
  {
    '0' <= c <= '9'
  }

  predicate AllDigits(s: string)
  {
    forall i :: 0 <= i < |s| ==> IsDigit(s[i])
  }

  function DigitOf(n: nat): (c: char)
    requires n < 10
    ensures IsDigit(c)
  {
    ('0' as int + n) as char
  }

  /** The number a string of decimal digits denotes. */
  function DigitsValue(s: string): nat
    requires AllDigits(s)
    decreases |s|
  {
    if s == [] then 0
    else DigitsValue(s[..|s| - 1]) * 10 + (s[|s| - 1] as int - '0' as int)
  }

  /** The longest prefix of `s` made of decimal digits. */
  function DigitRun(s: string): (r: string)
    ensures AllDigits(r) && |r| <= |s| && r == s[..|r|]
    ensures |r| < |s| ==> !IsDigit(s[|r|])
    decreases |s|
  {
    if s != [] && IsDigit(s[0]) then
      var rest := DigitRun(s[1..]);
      assert s[..|rest| + 1] == [s[0]] + rest;
      [s[0]] + rest
    else []
  }

  /** A natural number in decimal, without leading zeros. */
  function Decimal(n: nat): (r: string)
    ensures AllDigits(r) && r != []
    ensures DigitsValue(r) == n
    decreases n
  {
    if n < 10 then [DigitOf(n)]
    else
      var r := Decimal(n / 10) + [DigitOf(n % 10)];
      assert r[..|r| - 1] == Decimal(n / 10);
      r
  }

  /** PHP's `(string)` of an integer. */
  function IntToString(n: int): string
  {
    if n < 0 then "-" + Decimal(-n) else Decimal(n)
  }

  /**
   * PHP's `(int)` of a string: leading blanks are skipped, then an optional sign and the
   * longest run of decimal digits are read; no digits gives 0.
   */
  function StringToInt(s: string): int
  {
    var t := Text.DropLeading(Text.PhpNumericBlanks, s);
    if t != [] && t[0] == '-' then -(DigitsValue(DigitRun(t[1..])) as int)
    else if t != [] && t[0] == '+' then DigitsValue(DigitRun(t[1..]))
    else DigitsValue(DigitRun(t))
  }

  lemma DigitRunOfDigits(s: string)
    requires AllDigits(s)
    ensures DigitRun(s) == s
  {
    var r := DigitRun(s);
    assert |r| == |s|;
  }

  /** Casting an integer to string and back gives the integer. */
  lemma IntStringRoundTrip(n: int)
    ensures StringToInt(IntToString(n)) == n
  {
    var s := IntToString(n);
    var d := Decimal(if n < 0 then -n else n);
    assert s[0] !in Text.PhpNumericBlanks;
    assert Text.DropLeading(Text.PhpNumericBlanks, s) == s;
    DigitRunOfDigits(d);
    if n < 0 {
      assert s[1..] == d;
    }
  }

  /** PHP's `(int)` cast. */
  function IntCast(v: Value): (n: int)
    ensures v.Int? ==> n == v.i
    ensures v.Null? ==> n == 0
    ensures v.Str? && AllDigits(v.s) && v.s != [] ==> n == DigitsValue(v.s)
  {
    match v
    case Null => 0
    case Bool(b) => if b then 1 else 0
    case Int(i) => i
    case Str(s) =>
      if AllDigits(s) && s != [] then
        assert s[0] !in Text.PhpNumericBlanks;
        DigitRunOfDigits(s);
        StringToInt(s)
      else StringToInt(s)
    case Arr(m) => if |m| == 0 then 0 else 1
  }

  /** Conversion to string where a string is required; arrays raise a TypeError (None). */
  function StringOf(v: Value): (r: Option<string>)
    ensures r.None? <==> v.Arr?
    ensures v.Str? ==> r == Some(v.s)
  {
    match v
    case Null => Some("")
    case Bool(b) => Some(if b then "1" else "")
    case Int(i) => Some(IntToString(i))
    case Str(s) => Some(s)
    case Arr(_) => None
  }

  /** A string is falsy in PHP when it is "" or "0". */
  predicate Truthy(s: string)
  {
    s != "" && s != "0"
  }
}

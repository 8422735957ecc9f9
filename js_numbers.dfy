/**
 * The parts of JavaScript's number handling that the profiler relies on:
 * the global `parseInt` applied to a command-line string (without a radix),
 * the conversion of a non-negative integer to its decimal string (as in a
 * template literal `${i + 1}`), and the comparison `i < x` where `x` may be NaN.
 * NaN is represented by `None`.
 */
module JsNumbers {
  import opened Wrappers

  /** The WhiteSpace and LineTerminator code points that `parseInt` skips before the number. */
  predicate IsStrWhiteSpace(c: char) {
    var n := c as int;
    n == 0x09 || n == 0x0A || n == 0x0B || n == 0x0C || n == 0x0D || n == 0x20 ||
    n == 0xA0 || n == 0x1680 || (0x2000 <= n <= 0x200A) || n == 0x2028 || n == 0x2029 ||
    n == 0x202F || n == 0x205F || n == 0x3000 || n == 0xFEFF
  }

  /** `s` with its leading white space removed. */
  function TrimStart(s: string): (r: string)
    ensures |r| <= |s| && r == s[|s| - |r|..]
    ensures forall k :: 0 <= k < |s| - |r| ==> IsStrWhiteSpace(s[k])
    ensures r == [] || !IsStrWhiteSpace(r[0])
  {
    if s != [] && IsStrWhiteSpace(s[0]) then TrimStart(s[1..]) else s
  }

  /** The value of `c` as a digit in radices up to 36, or 36 when `c` is not a digit at all. */
  function DigitValue(c: char): (d: nat)
    ensures d <= 36
    ensures d < 10 <==> '0' <= c <= '9'
  {
    if '0' <= c <= '9' then c as int - '0' as int
    else if 'a' <= c <= 'z' then c as int - 'a' as int + 10
    else if 'A' <= c <= 'Z' then c as int - 'A' as int + 10
    else 36
  }

  /** Length of the longest prefix of `s` whose characters are digits below `radix`. */
  function DigitRun(s: string, radix: nat): (n: nat)
    ensures n <= |s|
    ensures forall k :: 0 <= k < n ==> DigitValue(s[k]) < radix
    ensures n == |s| || DigitValue(s[n]) >= radix
  {
    if s != [] && DigitValue(s[0]) < radix then 1 + DigitRun(s[1..], radix) else 0
  }

  /** The number that the digits of `s` denote in `radix`, most significant digit first. */
  function DigitsValue(s: string, radix: nat): nat {
    if s == [] then 0
    else DigitsValue(s[..|s| - 1], radix) * radix + DigitValue(s[|s| - 1])
  }

  /**
   * JavaScript's `parseInt(input)` with no radix: skip leading white space,
   * read an optional sign, read the prefix "0x"/"0X" as radix 16 (radix 10
   * otherwise), then take the longest run of digits; no digits gives NaN.
   */
  function ParseInt(input: string): Option<int> {
    ParseSigned(TrimStart(input))
  }

  /** `parseInt` after the white space: an optional sign, then the magnitude. */
  function ParseSigned(s: string): Option<int> {
    if s != [] && s[0] == '-' then Negate(ParseUnsigned(s[1..]))
    else if s != [] && s[0] == '+' then ParseUnsigned(s[1..])
    else ParseUnsigned(s)
  }

  function Negate(m: Option<nat>): Option<int> {
    match m
    case None => None
    case Some(v) => Some(-(v as int))
  }

  /** The magnitude: hexadecimal after a "0x"/"0X" prefix, decimal otherwise. */
  function ParseUnsigned(s: string): Option<nat> {
    if |s| >= 2 && s[0] == '0' && (s[1] == 'x' || s[1] == 'X') then ParseDigits(s[2..], 16)
    else ParseDigits(s, 10)
  }

  /** The value of the longest run of digits at the start of `s`; NaN when there is none. */
  function ParseDigits(s: string, radix: nat): Option<nat> {
    var end := DigitRun(s, radix);
    if end == 0 then None else Some(DigitsValue(s[..end], radix))
  }

  /** The decimal digit character for `d`. */
  function DigitChar(d: nat): (c: char)
    requires d < 10
    ensures '0' <= c <= '9' && DigitValue(c) == d
  {
    ('0' as int + d) as char
  }

  /** The decimal representation of `n`, as `String(n)` produces it for a safe integer. */
  function Decimal(n: nat): (s: string)
    ensures |s| > 0
    ensures forall k :: 0 <= k < |s| ==> '0' <= s[k] <= '9'
    ensures |s| == 1 || s[0] != '0'
    ensures n < 10 <==> |s| == 1
  {
    if n < 10 then [DigitChar(n)] else Decimal(n / 10) + [DigitChar(n % 10)]
  }

  lemma {:induction false} DecimalValue(n: nat)
    ensures DigitsValue(Decimal(n), 10) == n
  {
    if n >= 10 {
      DecimalValue(n / 10);
      var s := Decimal(n);
      assert s[..|s| - 1] == Decimal(n / 10);
    }
  }

  lemma {:induction false} DigitRunOfDigits(s: string, rest: string)
    requires forall k :: 0 <= k < |s| ==> '0' <= s[k] <= '9'
    requires rest == [] || DigitValue(rest[0]) >= 10
    ensures DigitRun(s + rest, 10) == |s|
  {
    if s != [] {
      assert (s + rest)[1..] == s[1..] + rest;
      DigitRunOfDigits(s[1..], rest);
    }
  }

  /**
   * `parseInt` reads back the decimal string of `n`, and stops at the first
   * character after it that is not a decimal digit ("12abc" and "5x" give 12
   * and 5); only for `n == 0` is a following `x` or `X` excluded, since "0x"
   * is the hex prefix.
   */
  lemma ParseIntDecimal(n: nat, rest: string)
    requires rest == [] || (DigitValue(rest[0]) >= 10 && (n != 0 || (rest[0] != 'x' && rest[0] != 'X')))
    ensures ParseInt(Decimal(n) + rest) == Some(n)
  {
    var d := Decimal(n);
    assert n != 0 ==> d[0] != '0' by {
      if n != 0 && n < 10 { assert d[0] == DigitChar(n); }
    }
    NumeralStart(d, rest);
    LeadingDigit(d + rest);
    DigitRunOfDigits(d, rest);
    assert (d + rest)[..|d|] == d;
    DecimalValue(n);
  }

  /** A numeral without leading zeros, followed by `rest`, starts with a digit and not with a hex prefix. */
  lemma NumeralStart(d: string, rest: string)
    requires |d| > 0 && (|d| == 1 || d[0] != '0')
    requires forall k :: 0 <= k < |d| ==> '0' <= d[k] <= '9'
    requires rest == [] || d[0] != '0' || (rest[0] != 'x' && rest[0] != 'X')
    ensures '0' <= (d + rest)[0] <= '9'
    ensures !(|d + rest| >= 2 && (d + rest)[0] == '0' && ((d + rest)[1] == 'x' || (d + rest)[1] == 'X'))
  {
    var s := d + rest;
    assert s[0] == d[0];
    if |d| == 1 && |s| >= 2 { assert s[1] == rest[0]; }
  }

  /** A string that starts with a decimal digit, and not with "0x", is read as decimal digits. */
  lemma LeadingDigit(s: string)
    requires s != [] && '0' <= s[0] <= '9'
    requires !(|s| >= 2 && s[0] == '0' && (s[1] == 'x' || s[1] == 'X'))
    ensures ParseInt(s) == ParseDigits(s, 10)
  {
    assert !IsStrWhiteSpace(s[0]);
    assert TrimStart(s) == s;
  }

  /** `parseInt` ignores white space in front of the number. */
  lemma {:induction false} ParseIntSkipsWhiteSpace(w: string, s: string)
    requires forall k :: 0 <= k < |w| ==> IsStrWhiteSpace(w[k])
    ensures ParseInt(w + s) == ParseInt(s)
  {
    TrimStartSkips(w, s);
  }

  lemma {:induction false} TrimStartSkips(w: string, s: string)
    requires forall k :: 0 <= k < |w| ==> IsStrWhiteSpace(w[k])
    ensures TrimStart(w + s) == TrimStart(s)
  {
    if w != [] {
      assert (w + s)[0] == w[0];
      assert (w + s)[1..] == w[1..] + s;
      assert TrimStart(w + s) == TrimStart(w[1..] + s);
      TrimStartSkips(w[1..], s);
    } else {
      assert w + s == s;
    }
  }

  /** A minus sign negates what follows it; NaN stays NaN. */
  lemma ParseIntNegative(s: string)
    requires s == [] || (!IsStrWhiteSpace(s[0]) && s[0] != '-' && s[0] != '+')
    ensures ParseInt("-" + s).Some? <==> ParseInt(s).Some?
    ensures ParseInt(s).Some? ==> ParseInt("-" + s).value == -ParseInt(s).value
  {
    var t := "-" + s;
    assert TrimStart(t) == t;
    assert TrimStart(s) == s;
    assert t[1..] == s;
    assert ParseInt(t) == Negate(ParseUnsigned(s));
    assert ParseInt(s) == ParseUnsigned(s);
  }

  /** A string without any digit is NaN. */
  lemma ParseIntNoDigits(s: string)
    requires forall k :: 0 <= k < |s| ==> DigitValue(s[k]) >= 10
    ensures ParseInt(s) == None
  {
    var t := TrimStart(s);
    assert t == s[|s| - |t|..];
    assert t != [] && t[0] == '-' ==> ParseUnsigned(t[1..]) == None by {
      if t != [] {
        assert forall k :: 0 <= k < |t| ==> t[k] == s[|s| - |t| + k];
      }
    }
  }

  /** JavaScript's `i < x` for a number `x` that may be NaN (`None`): false against NaN. */
  function LessThan(i: int, x: Option<int>): (b: bool)
    ensures x == None ==> !b
    ensures x.Some? ==> (b <==> i < x.value)
  {
    match x
    case None => false
    case Some(v) => i < v
  }
}

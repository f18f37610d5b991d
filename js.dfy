/**
 * The few JavaScript built-ins whose exact behaviour the client relies on:
 * truthiness of optional strings, `indexOf` and `startsWith`, `replace` with a
 * string pattern (which replaces only the FIRST occurrence), `parseInt` on a
 * decimal-digit string, and the errors a call may throw.
 */
module Js {
  import opened Wrappers

  /** What a call can throw. */
  datatype JsError =
    | TypeError(what: string)      // property access on `undefined`
    | Error(message: string)       // `throw new Error(message)`
    | SyntaxError(what: string)    // `JSON.parse` of malformed text
    | NetworkError                 // a rejected HTTP request

  /** A JS number produced by `parseInt`: an integer or `NaN`. */
  datatype Number = NaN | Num(value: int)

  /** `!!x` for a value that is a string or absent: only a non-empty string is truthy. */
  predicate Truthy(x: Option<string>) {
    x.Some? && x.value != ""
  }

  /** `localStorage.getItem(key)`, or none when there is no `localStorage`. */
  function GetItem(storage: Option<map<string, string>>, key: string): Option<string> {
    if storage.Some? && key in storage.value then Some(storage.value[key]) else None
  }

  /** `s.startsWith(p)`. */
  predicate StartsWith(s: string, p: string) {
    |p| <= |s| && s[..|p|] == p
  }

  /** `s.indexOf(c)` for a one-character pattern: the first position of `c`, or -1. */
  function IndexOf(s: string, c: char): (r: int)
    ensures -1 <= r < |s|
    ensures r == -1 <==> c !in s
    ensures r >= 0 ==> s[r] == c && c !in s[..r]
  {
    if |s| == 0 then -1
    else if s[0] == c then 0
    else
      var k := IndexOf(s[1..], c);
      if k == -1 then -1
      else
        assert s[..k + 1] == [s[0]] + s[1..][..k];
        k + 1
  }

  /**
   * The index of the first element satisfying `p`, or -1: where
   * `s.find(p)` finds its element, and -1 when it yields `undefined`.
   */
  function FindIndex<T>(s: seq<T>, p: T -> bool): (r: int)
    ensures -1 <= r < |s|
    ensures r == -1 <==> forall i | 0 <= i < |s| :: !p(s[i])
    ensures r >= 0 ==> p(s[r]) && forall j | 0 <= j < r :: !p(s[j])
  {
    if |s| == 0 then -1
    else if p(s[0]) then 0
    else var k := FindIndex(s[1..], p); if k == -1 then -1 else k + 1
  }

  /** `s.replace(p, q)` for one-character string patterns: only the first `p` becomes `q`. */
  function ReplaceFirst(s: string, p: char, q: char): (r: string)
    ensures |r| == |s|
    ensures p !in s ==> r == s
    ensures p in s ==> r == s[..IndexOf(s, p)] + [q] + s[IndexOf(s, p) + 1..]
  {
    if |s| == 0 then s
    else if s[0] == p then [q] + s[1..]
    else
      var rest := ReplaceFirst(s[1..], p, q);
      assert p in s ==> p in s[1..];
      [s[0]] + rest
  }

  /** A position holding `c` with no `c` before it is where `indexOf` finds `c`. */
  lemma IndexOfFirst(s: string, c: char, i: nat)
    requires i < |s| && s[i] == c && c !in s[..i]
    ensures IndexOf(s, c) == i
  {
    var k := IndexOf(s, c);
    assert forall j | 0 <= j < i :: s[j] == s[..i][j];
    assert forall j | 0 <= j < k :: s[j] == s[..k][j];
  }

  /** Replacing the first `p` leaves every later `p` in place. */
  lemma ReplaceFirstAfterPrefix(prefix: string, p: char, q: char, rest: string)
    requires p !in prefix
    ensures ReplaceFirst(prefix + [p] + rest, p, q) == prefix + [q] + rest
  {
    var s := prefix + [p] + rest;
    var n := |prefix|;
    assert s[n] == p && s[..n] == prefix && s[n + 1..] == rest;
    IndexOfFirst(s, p, n);
  }

  predicate IsDigit(c: char) {
    '0' <= c <= '9'
  }

  function DigitValue(c: char): (d: nat)
    requires IsDigit(c)
    ensures d < 10
  {
    (c as int) - ('0' as int)
  }

  function Digit(d: nat): (c: char)
    requires d < 10
    ensures IsDigit(c) && DigitValue(c) == d
  {
    (('0' as int) + d) as char
  }

  /** The length of the longest prefix of `s` made of decimal digits. */
  function DigitPrefixLength(s: string): (n: nat)
    ensures n <= |s|
    ensures forall i | 0 <= i < n :: IsDigit(s[i])
    ensures n < |s| ==> !IsDigit(s[n])
  {
    if |s| == 0 || !IsDigit(s[0]) then 0 else 1 + DigitPrefixLength(s[1..])
  }

  /** The value of a string of decimal digits, read most significant digit first. */
  function DigitsValue(s: string): nat
    requires forall i | 0 <= i < |s| :: IsDigit(s[i])
  {
    if |s| == 0 then 0 else 10 * DigitsValue(s[..|s| - 1]) + DigitValue(s[|s| - 1])
  }

  /**
   * `parseInt(s)` for strings that start with decimal digits: the value of the
   * leading digits, and `NaN` when there are none.
   */
  function ParseInt(s: string): (r: Number)
    ensures r.NaN? <==> (|s| == 0 || !IsDigit(s[0]))
  {
    var n := DigitPrefixLength(s);
    if n == 0 then NaN else Num(DigitsValue(s[..n]))
  }

  /** The decimal spelling of a natural number (what `String(n)` gives). */
  function DecimalString(n: nat): (s: string)
    ensures |s| > 0
    ensures forall i | 0 <= i < |s| :: IsDigit(s[i])
  {
    if n < 10 then [Digit(n)] else DecimalString(n / 10) + [Digit(n % 10)]
  }

  lemma {:induction false} DigitsValueOfDecimal(n: nat)
    ensures DigitsValue(DecimalString(n)) == n
  {
    var s := DecimalString(n);
    if n >= 10 {
      DigitsValueOfDecimal(n / 10);
      assert s[..|s| - 1] == DecimalString(n / 10);
    }
  }

  lemma {:induction false} DigitPrefixOfDigits(a: string, b: string)
    requires forall i | 0 <= i < |a| :: IsDigit(a[i])
    ensures DigitPrefixLength(a + b) == |a| + DigitPrefixLength(b)
  {
    if |a| > 0 {
      assert (a + b)[0] == a[0];
      assert (a + b)[1..] == a[1..] + b;
      DigitPrefixOfDigits(a[1..], b);
    } else {
      assert a + b == b;
    }
  }

  /** `parseInt` stops at the first character that is not a digit: `"12px"` reads as 12. */
  lemma ParseIntStopsAtNonDigit(n: nat, rest: string)
    requires |rest| == 0 || !IsDigit(rest[0])
    ensures ParseInt(DecimalString(n) + rest) == Num(n)
  {
    var s := DecimalString(n);
    DigitPrefixOfDigits(s, rest);
    assert (s + rest)[..|s|] == s;
    DigitsValueOfDecimal(n);
  }

  /** `parseInt` reads back every number in its decimal spelling. */
  lemma ParseIntDecimal(n: nat)
    ensures ParseInt(DecimalString(n)) == Num(n)
  {
    var s := DecimalString(n);
    assert DigitPrefixLength(s) == |s|;
    assert s[..|s|] == s;
    DigitsValueOfDecimal(n);
  }
}

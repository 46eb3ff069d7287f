/** The few JavaScript built-ins whose behaviour the core depends on:
    `parseInt` (decimal), `Number()` on a query-string value, truthiness of a
    number, and ASCII lower-casing. */
module Js {
  import opened Wrappers

  /** A JavaScript number restricted to the integers, plus NaN. */
  datatype Num = NaN | Int(i: int)

  /** `!!n`: zero and NaN are falsy, every other number is truthy. */
  predicate Truthy(n: Num) {
    n.Int? && n.i != 0
  }

  predicate IsDigit(c: char) {
    '0' <= c <= '9'
  }

  /** ECMAScript `StrWhiteSpaceChar`: TAB, VT, FF, ZWNBSP, the space
      separators (category Zs) and the four line terminators. */
  predicate IsSpace(c: char) {
    c == '\t' || c == '\U{000B}' || c == '\U{000C}' || c == '\U{FEFF}' ||
    c == ' ' || c == '\U{00A0}' || c == '\U{1680}' || ('\U{2000}' <= c <= '\U{200A}') ||
    c == '\U{202F}' || c == '\U{205F}' || c == '\U{3000}' ||
    c == '\n' || c == '\r' || c == '\U{2028}' || c == '\U{2029}'
  }

  /** Value of a string of decimal digits. */
  function DigitsValue(s: string): (v: nat)
    requires forall k :: 0 <= k < |s| ==> IsDigit(s[k])
  {
    if s == [] then 0 else 10 * DigitsValue(s[..|s| - 1]) + DigitValue(s[|s| - 1])
  }

  function DigitValue(c: char): (d: nat)
    requires IsDigit(c)
    ensures d < 10
  {
    c as int - '0' as int
  }

  /** Length of the longest prefix of `s` made of decimal digits. */
  function DigitPrefix(s: string): (n: nat)
    ensures n <= |s|
    ensures forall k :: 0 <= k < n ==> IsDigit(s[k])
    ensures n < |s| ==> !IsDigit(s[n])
  {
    if s == [] || !IsDigit(s[0]) then 0 else 1 + DigitPrefix(s[1..])
  }

  /** Digits after an optional sign: the decimal core of `parseInt`. */
  function ParseSigned(s: string): (r: Num)
    ensures (forall k :: 0 <= k < |s| ==> !IsDigit(s[k])) ==> r == NaN
    ensures |s| > 0 && IsDigit(s[0]) ==> r.Int? && r.i >= 0
  {
    var neg := |s| > 0 && s[0] == '-';
    var body := if |s| > 0 && (s[0] == '-' || s[0] == '+') then s[1..] else s;
    var n := DigitPrefix(body);
    if n == 0 then NaN
    else if neg then Int(-(DigitsValue(body[..n]) as int))
    else Int(DigitsValue(body[..n]))
  }

  /** `parseInt(s)`: skips leading white space, reads an optional sign and the
      longest run of decimal digits, and ignores whatever follows; NaN when no
      digit is found. */
  function ParseInt(s: string): (r: Num)
    ensures (forall k :: 0 <= k < |s| ==> !IsDigit(s[k])) ==> r == NaN
    ensures |s| > 0 && IsDigit(s[0]) ==> r.Int? && r.i >= 0
    decreases |s|
  {
    if |s| > 0 && IsSpace(s[0]) then ParseInt(s[1..]) else ParseSigned(s)
  }

  /** `Number(v)` for a query-string value `v` (`null` when the key is absent):
      `null` and the empty string give 0, a string of decimal digits gives its
      value, anything else is NaN. */
  function NumberOf(v: Option<string>): (r: Num)
    ensures v.None? || v == Some("") ==> r == Int(0)
    ensures r.Int? ==> r.i >= 0
    ensures v.Some? && (exists k :: 0 <= k < |v.value| && !IsDigit(v.value[k])) ==> r == NaN
  {
    match v
    case None => Int(0)
    case Some(s) =>
      if s == [] then Int(0)
      else if forall k :: 0 <= k < |s| ==> IsDigit(s[k]) then Int(DigitsValue(s))
      else NaN
  }

  /** Decimal text of a natural number, as `String(n)` writes it. */
  function NatToString(n: nat): (s: string)
    ensures |s| > 0
    ensures forall k :: 0 <= k < |s| ==> IsDigit(s[k])
  {
    if n < 10 then [('0' as int + n) as char]
    else NatToString(n / 10) + [('0' as int + n % 10) as char]
  }

  /** `String(n)` is read back by `Number(...)` as `n`. */
  lemma {:induction false} DigitsOfNatToString(n: nat)
    ensures DigitsValue(NatToString(n)) == n
  {
    var s := NatToString(n);
    if n >= 10 {
      DigitsOfNatToString(n / 10);
      assert s[..|s| - 1] == NatToString(n / 10);
    }
  }

  lemma NumberOfNatToString(n: nat)
    ensures NumberOf(Some(NatToString(n))) == Int(n)
  {
    DigitsOfNatToString(n);
  }

  /** `parseInt` applied to `String(n)` gives back `n`. */
  lemma ParseIntNatToString(n: nat)
    ensures ParseInt(NatToString(n)) == Int(n)
  {
    var s := NatToString(n);
    assert !IsSpace(s[0]);
    assert DigitPrefix(s) == |s|;
    assert s[..|s|] == s;
    DigitsOfNatToString(n);
  }

  function LowerChar(c: char): (d: char)
  {
    if 'A' <= c <= 'Z' then (c as int + 32) as char else c
  }

  /** `s.toLowerCase()` on ASCII letters; other characters are kept. */
  function ToLower(s: string): (r: string)
    ensures |r| == |s|
    ensures forall k :: 0 <= k < |s| ==> r[k] == LowerChar(s[k])
  {
    if s == [] then [] else [LowerChar(s[0])] + ToLower(s[1..])
  }
}

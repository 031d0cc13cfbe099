/**
 * The few JavaScript built-ins the wizard's logic leans on, with the semantics the
 * ECMAScript standard gives them: `parseInt` (section 19.2.5 of ECMA-262),
 * `Number.prototype.toString` on small non-negative integers, `Array.prototype.slice`
 * with start 0, `filter` by index, `map` that rewrites one index, and the
 * `Array.from({ length }, (_, i) => (i + first).toString())` idiom used to build
 * option lists. `NaN` is modelled as `None`.
 */
module JsBuiltins {
  import opened Wrappers

  // ---------------------------------------------------------------------------
  // parseInt
  // ---------------------------------------------------------------------------

  /** WhiteSpace and LineTerminator code points, which parseInt skips at the start. */
  predicate IsJsWhiteSpace(c: char) {
    c == '\t' || c == '\n' || c == '\U{000B}' || c == '\U{000C}' || c == '\r' || c == ' ' ||
    c == '\U{00A0}' || c == '\U{1680}' || ('\U{2000}' <= c <= '\U{200A}') ||
    c == '\U{2028}' || c == '\U{2029}' || c == '\U{202F}' || c == '\U{205F}' ||
    c == '\U{3000}' || c == '\U{FEFF}'
  }

  /** The string with its leading white space removed. */
  function TrimStart(s: string): (r: string)
    ensures |r| <= |s| && r == s[|s| - |r|..]
    ensures r == [] || !IsJsWhiteSpace(r[0])
    ensures forall i :: 0 <= i < |s| - |r| ==> IsJsWhiteSpace(s[i])
  {
    if s != [] && IsJsWhiteSpace(s[0]) then TrimStart(s[1..]) else s
  }

  /** The value of `c` as a digit in base `radix` (10 or 16), or -1 when it is not one. */
  function DigitValue(c: char, radix: nat): (d: int)
    requires radix == 10 || radix == 16
    ensures -1 <= d < radix
  {
    if '0' <= c <= '9' then c as int - '0' as int
    else if radix == 16 && 'a' <= c <= 'f' then c as int - 'a' as int + 10
    else if radix == 16 && 'A' <= c <= 'F' then c as int - 'A' as int + 10
    else -1
  }

  /** The longest prefix of `s` made of base-`radix` digits. */
  function DigitPrefix(s: string, radix: nat): (r: string)
    requires radix == 10 || radix == 16
    ensures r <= s
    ensures forall i :: 0 <= i < |r| ==> DigitValue(r[i], radix) >= 0
    ensures |r| < |s| ==> DigitValue(s[|r|], radix) < 0
  {
    if s != [] && DigitValue(s[0], radix) >= 0 then [s[0]] + DigitPrefix(s[1..], radix) else []
  }

  /** The number a string of base-`radix` digits denotes, most significant digit first. */
  function DigitsValue(s: string, radix: nat): (n: nat)
    requires radix == 10 || radix == 16
    requires forall i :: 0 <= i < |s| ==> DigitValue(s[i], radix) >= 0
  {
    if s == [] then 0
    else DigitsValue(s[..|s| - 1], radix) * radix + DigitValue(s[|s| - 1], radix)
  }

  /** True when `u` starts with the `0x` or `0X` prefix that switches parseInt to base 16. */
  predicate HasHexPrefix(u: string) {
    |u| >= 2 && u[0] == '0' && (u[1] == 'x' || u[1] == 'X')
  }

  /** The unsigned part of parseInt: the value of the leading digits, or NaN without any. */
  function ParseMagnitude(u: string): (r: Option<nat>)
  {
    var radix := if HasHexPrefix(u) then 16 else 10;
    var digits := DigitPrefix(if HasHexPrefix(u) then u[2..] else u, radix);
    if digits == [] then None else Some(DigitsValue(digits, radix))
  }

  /**
   * JavaScript's `parseInt(s)` with no radix: skip leading white space, read an
   * optional sign, switch to base 16 after a `0x`/`0X` prefix, then read the longest
   * run of digits; no digit at all gives NaN (`None`). Trailing characters are ignored.
   */
  function ParseInt(s: string): (r: Option<int>)
  {
    var t := TrimStart(s);
    if t != [] && t[0] == '-' then
      match ParseMagnitude(t[1..])
      case None => None
      case Some(m) => Some(-(m as int))
    else if t != [] && t[0] == '+' then
      match ParseMagnitude(t[1..])
      case None => None
      case Some(m) => Some(m)
    else
      match ParseMagnitude(t)
      case None => None
      case Some(m) => Some(m)
  }

  // ---------------------------------------------------------------------------
  // Number.prototype.toString on non-negative integers
  // ---------------------------------------------------------------------------

  function DigitChar(d: nat): (c: char)
    requires d < 10
    ensures DigitValue(c, 10) == d
  {
    ['0', '1', '2', '3', '4', '5', '6', '7', '8', '9'][d]
  }

  /** `n.toString()`: the decimal digits of `n`, without leading zeros. */
  function ToDecimal(n: nat): (s: string)
    ensures s != []
    ensures forall i :: 0 <= i < |s| ==> DigitValue(s[i], 10) >= 0
    ensures |s| > 1 ==> s[0] != '0'
  {
    if n < 10 then [DigitChar(n)] else ToDecimal(n / 10) + [DigitChar(n % 10)]
  }

  lemma {:induction false} DigitsValueOfDecimal(n: nat)
    ensures DigitsValue(ToDecimal(n), 10) == n
  {
    if n >= 10 {
      DigitsValueOfDecimal(n / 10);
      var s := ToDecimal(n);
      assert s[..|s| - 1] == ToDecimal(n / 10);
    }
  }

  lemma {:induction false} DigitPrefixOfDigits(s: string)
    requires forall i :: 0 <= i < |s| ==> DigitValue(s[i], 10) >= 0
    ensures DigitPrefix(s, 10) == s
  {
    if s != [] {
      DigitPrefixOfDigits(s[1..]);
    }
  }

  /** A decimal digit string starts with a digit, so parseInt has no white space to skip there. */
  lemma DigitsAreNotSpaceOrSign(s: string)
    requires s != [] && forall i :: 0 <= i < |s| ==> DigitValue(s[i], 10) >= 0
    ensures TrimStart(s) == s && '0' <= s[0] <= '9'
  {
    assert '0' <= s[0] <= '9' by { assert DigitValue(s[0], 10) >= 0; }
    assert !IsJsWhiteSpace(s[0]);
  }

  lemma DigitsAreNotHex(s: string)
    requires s != [] && forall i :: 0 <= i < |s| ==> DigitValue(s[i], 10) >= 0
    ensures !HasHexPrefix(s)
  {
    if |s| >= 2 { assert DigitValue(s[1], 10) >= 0; }
  }

  /** Without white space or a sign in front, parseInt is the unsigned reading. */
  lemma ParseIntUnsigned(s: string)
    requires s != [] && TrimStart(s) == s && s[0] != '-' && s[0] != '+'
    ensures ParseInt(s) == match ParseMagnitude(s) case None => None case Some(m) => Some(m as int)
  {
  }

  /** A decimal digit string is read whole, in base 10. */
  lemma MagnitudeOfDigits(s: string)
    requires s != [] && forall i :: 0 <= i < |s| ==> DigitValue(s[i], 10) >= 0
    ensures ParseMagnitude(s) == Some(DigitsValue(s, 10))
  {
    DigitsAreNotHex(s);
    DigitPrefixOfDigits(s);
  }

  /** A non-empty decimal digit string parses to its value. */
  lemma ParseIntOfDigits(s: string)
    requires s != [] && forall i :: 0 <= i < |s| ==> DigitValue(s[i], 10) >= 0
    ensures ParseInt(s) == Some(DigitsValue(s, 10))
  {
    DigitsAreNotSpaceOrSign(s);
    ParseIntUnsigned(s);
    MagnitudeOfDigits(s);
  }

  /** Reading back what `toString` wrote gives the number again. */
  lemma ParseIntOfDecimal(n: nat)
    ensures ParseInt(ToDecimal(n)) == Some(n)
  {
    ParseIntOfDigits(ToDecimal(n));
    DigitsValueOfDecimal(n);
  }

  // ---------------------------------------------------------------------------
  // Array.from({ length: count }, (_, i) => (i + first).toString())
  // ---------------------------------------------------------------------------

  /** The option strings `first`, `first + 1`, ..., `first + count - 1`, in that order. */
  function RangeStrings(count: nat, first: nat): (r: seq<string>)
    ensures |r| == count
  {
    seq(count, i requires 0 <= i < count => ToDecimal(first + i))
  }

  /** Each option parses back to its number, so the options are pairwise distinct. */
  lemma RangeStringsParse(count: nat, first: nat)
    ensures forall k :: 0 <= k < count ==> ParseInt(RangeStrings(count, first)[k]) == Some(first + k)
    ensures forall j, k :: 0 <= j < k < count ==> RangeStrings(count, first)[j] != RangeStrings(count, first)[k]
  {
    forall k | 0 <= k < count
      ensures ParseInt(RangeStrings(count, first)[k]) == Some(first + k)
    {
      ParseIntOfDecimal(first + k);
    }
  }

  // ---------------------------------------------------------------------------
  // Arrays
  // ---------------------------------------------------------------------------

  /**
   * `s.slice(0, end)`: a negative `end` counts from the back of the array, and an
   * `end` past the length stops at the length.
   */
  function SliceTo<T>(s: seq<T>, end: int): (r: seq<T>)
    ensures r <= s
    ensures 0 <= end ==> |r| == if end < |s| then end else |s|
    ensures end < 0 ==> |r| == if |s| + end > 0 then |s| + end else 0
  {
    var stop := if end < 0 then (if |s| + end > 0 then |s| + end else 0)
                else if end < |s| then end else |s|;
    s[..stop]
  }

  /**
   * `s.filter((_, i) => i !== index)`, built as the filter walks the array: every
   * element whose position differs from `index`, in order.
   */
  function WithoutIndex<T>(s: seq<T>, index: int): (r: seq<T>)
    ensures 0 <= index < |s| ==> r == s[..index] + s[index + 1..]
    ensures !(0 <= index < |s|) ==> r == s
  {
    if s == [] then []
    else
      var last := |s| - 1;
      WithoutIndex(s[..last], index) + (if last == index then [] else [s[last]])
  }

  /** `s.map((x, i) => i === index ? f(x) : x)`. */
  function MapAt<T>(s: seq<T>, index: int, f: T -> T): (r: seq<T>)
    ensures |r| == |s|
    ensures forall k :: 0 <= k < |s| && k != index ==> r[k] == s[k]
    ensures 0 <= index < |s| ==> r[index] == f(s[index])
  {
    seq(|s|, k requires 0 <= k < |s| => if k == index then f(s[k]) else s[k])
  }
}

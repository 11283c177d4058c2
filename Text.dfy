/**
 * JavaScript strings as the bot's code sees them: sequences of UTF-16 code
 * units.  `.length`, `.slice`, `.substring` and a regular expression without
 * the `u` flag all count and cut code units, so text is modelled at that
 * level and Dafny string literals are converted with `Lit` (UTF-16 encoding).
 */
module JsText {

  newtype CodeUnit = x: int | 0 <= x < 0x1_0000

  type Text = seq<CodeUnit>

  datatype Option<+T> = None | Some(value: T)

  /** One byte of a Node.js Buffer (decoded PCM audio). */
  newtype Byte = x: int | 0 <= x < 0x100

  /** The UTF-16 code units of one Unicode scalar value. */
  function CharUnits(c: char): (u: seq<CodeUnit>)
    ensures |u| == if c as int < 0x1_0000 then 1 else 2
  {
    var v := c as int;
    if v < 0x1_0000 then [v as CodeUnit]
    else
      var w := v - 0x1_0000;
      [(0xD800 + w / 0x400) as CodeUnit, (0xDC00 + w % 0x400) as CodeUnit]
  }

  /** UTF-16 encoding of a Dafny string. */
  function Utf16(s: string): Text
  {
    if s == [] then [] else CharUnits(s[0]) + Utf16(s[1..])
  }

  predicate InBmp(s: string)
  {
    forall i :: 0 <= i < |s| ==> s[i] as int < 0x1_0000
  }

  /** A source literal without characters beyond U+FFFF: one code unit per character. */
  function Lit(s: string): (t: Text)
    requires InBmp(s)
    ensures |t| == |s|
    ensures forall i :: 0 <= i < |s| ==> t[i] as int == s[i] as int
  {
    seq(|s|, i requires 0 <= i < |s| => s[i] as int as CodeUnit)
  }

  /** For such literals `Lit` is the UTF-16 encoding. */
  lemma {:induction false} LitIsUtf16(s: string)
    requires InBmp(s)
    ensures Lit(s) == Utf16(s)
  {
    if s != [] {
      LitIsUtf16(s[1..]);
      assert Lit(s) == CharUnits(s[0]) + Lit(s[1..]);
    }
  }

  /** A value that JavaScript treats as true in a condition: a present, non-empty string. */
  predicate Truthy(o: Option<Text>)
  {
    o.Some? && o.value != []
  }

  // ---------------------------------------------------------------------------
  // Decimal rendering of integers (`${n}` for integral Numbers)

  const Zero: CodeUnit := 48
  const Minus: CodeUnit := 45

  predicate IsDigit(u: CodeUnit)
  {
    Zero <= u < Zero + 10
  }

  function Digit(d: nat): (u: CodeUnit)
    requires d < 10
    ensures IsDigit(u) && (u - Zero) as int == d
  {
    (Zero as int + d) as CodeUnit
  }

  /** Decimal digits of `n`, most significant first, no leading zeros. */
  function NatText(n: nat): (t: Text)
    ensures |t| >= 1
    ensures forall i :: 0 <= i < |t| ==> IsDigit(t[i])
  {
    if n < 10 then [Digit(n)] else NatText(n / 10) + [Digit(n % 10)]
  }

  /** `${i}` for an integral Number: a minus sign, then the digits of |i|. */
  function IntText(i: int): (t: Text)
    ensures i >= 0 ==> t == NatText(i)
    ensures i < 0 ==> t == [Minus] + NatText(-i)
  {
    if i < 0 then [Minus] + NatText(-i) else NatText(i)
  }

  /** The value of a text made only of digits. */
  function DigitsValue(t: Text): nat
    requires forall i :: 0 <= i < |t| ==> IsDigit(t[i])
  {
    if t == [] then 0
    else
      assert IsDigit(t[|t| - 1]);
      DigitsValue(t[..|t| - 1]) * 10 + (t[|t| - 1] as int - Zero as int)
  }

  /** Number of leading digits of `t`. */
  function DigitRun(t: Text): (k: nat)
    ensures k <= |t|
    ensures forall i :: 0 <= i < k ==> IsDigit(t[i])
    ensures k < |t| ==> !IsDigit(t[k])
  {
    if t != [] && IsDigit(t[0]) then 1 + DigitRun(t[1..]) else 0
  }

  /** Reads a decimal number at the front of `t`; the rest is returned with it. */
  function ReadNat(t: Text): Option<(nat, Text)>
  {
    var k := DigitRun(t);
    if k == 0 then None else Some((DigitsValue(t[..k]), t[k..]))
  }

  lemma {:induction false} DigitsValueOfNatText(n: nat)
    ensures DigitsValue(NatText(n)) == n
  {
    if n >= 10 {
      var t := NatText(n);
      assert t[..|t| - 1] == NatText(n / 10);
      DigitsValueOfNatText(n / 10);
    }
  }

  lemma {:induction false} DigitRunOfDigits(t: Text, rest: Text)
    requires forall i :: 0 <= i < |t| ==> IsDigit(t[i])
    requires rest == [] || !IsDigit(rest[0])
    ensures DigitRun(t + rest) == |t|
  {
    if t != [] {
      assert (t + rest)[1..] == t[1..] + rest;
      DigitRunOfDigits(t[1..], rest);
    }
  }

  /** Reading back a rendered number gives the number and the untouched rest. */
  lemma ReadNatText(n: nat, rest: Text)
    requires rest == [] || !IsDigit(rest[0])
    ensures ReadNat(NatText(n) + rest) == Some((n, rest))
  {
    var t := NatText(n);
    DigitRunOfDigits(t, rest);
    assert (t + rest)[..|t|] == t;
    assert (t + rest)[|t|..] == rest;
    DigitsValueOfNatText(n);
  }

  /** Distinct numbers render differently. */
  lemma NatTextInjective(a: nat, b: nat)
    requires NatText(a) == NatText(b)
    ensures a == b
  {
    DigitsValueOfNatText(a);
    DigitsValueOfNatText(b);
  }

  // ---------------------------------------------------------------------------
  // String.prototype.trim: removes WhiteSpace and LineTerminator code units

  predicate IsJsWhitespace(u: CodeUnit)
  {
    u == 0x09 || u == 0x0A || u == 0x0B || u == 0x0C || u == 0x0D || u == 0x20
    || u == 0xA0 || u == 0x1680 || (0x2000 <= u <= 0x200A) || u == 0x2028 || u == 0x2029
    || u == 0x202F || u == 0x205F || u == 0x3000 || u == 0xFEFF
  }

  function TrimStart(t: Text): (r: Text)
    ensures |r| <= |t| && r == t[|t| - |r|..]
    ensures r == [] || !IsJsWhitespace(r[0])
    ensures forall i :: 0 <= i < |t| - |r| ==> IsJsWhitespace(t[i])
  {
    if t != [] && IsJsWhitespace(t[0]) then TrimStart(t[1..]) else t
  }

  function TrimEnd(t: Text): (r: Text)
    ensures |r| <= |t| && r == t[..|r|]
    ensures r == [] || !IsJsWhitespace(r[|r| - 1])
    ensures forall i :: |r| <= i < |t| ==> IsJsWhitespace(t[i])
  {
    if t != [] && IsJsWhitespace(t[|t| - 1]) then TrimEnd(t[..|t| - 1]) else t
  }

  /** `t.trim()`: the text between the leading and the trailing whitespace. */
  function Trim(t: Text): (r: Text)
    ensures |r| <= |t|
    ensures r == [] || (!IsJsWhitespace(r[0]) && !IsJsWhitespace(r[|r| - 1]))
    ensures exists a, b :: 0 <= a <= b <= |t| && r == t[a..b]
  {
    var s := TrimStart(t);
    var r := TrimEnd(s);
    assert r == t[|t| - |s|..][..|r|] == t[|t| - |s|..|t| - |s| + |r|];
    r
  }

  // ---------------------------------------------------------------------------
  // Prefixes, slicing and joining

  predicate StartsWith(t: Text, p: Text)
  {
    |p| <= |t| && t[..|p|] == p
  }

  /** `t.slice(0, n)` / `t.substring(0, n)` for n >= 0: at most the first n code units. */
  function Take(t: Text, n: nat): (r: Text)
    ensures |r| == if |t| < n then |t| else n
    ensures StartsWith(t, r)
  {
    if |t| <= n then t else t[..n]
  }

  /** `parts.join(sep)`. */
  function Join(parts: seq<Text>, sep: Text): Text
  {
    if parts == [] then []
    else if |parts| == 1 then parts[0]
    else parts[0] + sep + Join(parts[1..], sep)
  }

  /** All the parts concatenated, in order. */
  function Concat<T>(parts: seq<seq<T>>): seq<T>
  {
    if parts == [] then [] else parts[0] + Concat(parts[1..])
  }

  lemma {:induction false} ConcatAppend<T>(parts: seq<seq<T>>, last: seq<T>)
    ensures Concat(parts + [last]) == Concat(parts) + last
  {
    if parts != [] {
      assert (parts + [last])[1..] == parts[1..] + [last];
      ConcatAppend(parts[1..], last);
    }
  }
}

/**
 * The JavaScript string operations the core relies on: `startsWith`,
 * `replace` with a string pattern, integer-to-string conversion, `parseInt`,
 * hexadecimal encoding of bytes and `toUpperCase` on that alphabet.
 */
module Text {
  import opened Wrappers

  type byte = b: int | 0 <= b < 256

  /** `s.startsWith(prefix)`. */
  predicate StartsWith(s: string, prefix: string)
  {
    |prefix| <= |s| && s[..|prefix|] == prefix
  }

  /** A string that differs from `prefix` at some position inside both does not start with it. */
  lemma MismatchNotStartsWith(s: string, prefix: string, k: nat)
    requires k < |prefix| && k < |s| && s[k] != prefix[k]
    ensures !StartsWith(s, prefix)
  {
    if |prefix| <= |s| {
      assert s[..|prefix|][k] == s[k];
    }
  }

  /** A character `\d` matches in a JavaScript regular expression without the `u` flag. */
  predicate IsDigit(c: char)
  {
    '0' <= c <= '9'
  }

  predicate IsLowerHex(c: char)
  {
    IsDigit(c) || 'a' <= c <= 'f'
  }

  predicate IsUpperHex(c: char)
  {
    IsDigit(c) || 'A' <= c <= 'F'
  }

  // ---------------------------------------------------------------------------
  // JavaScript truthiness of a value that is a string or absent (`null` or
  // `undefined`): the absent value and the empty string are falsy.

  predicate Truthy(v: Option<string>)
  {
    v.Some? && v.value != ""
  }

  /** `a || b`: `a` when it is truthy, otherwise `b`. */
  function OrElse(a: Option<string>, b: Option<string>): (r: Option<string>)
    ensures Truthy(r) <==> Truthy(a) || Truthy(b)
    ensures Truthy(a) ==> r == a
    ensures !Truthy(a) ==> r == b
  {
    if Truthy(a) then a else b
  }

  // ---------------------------------------------------------------------------
  // `s.replace(pattern, replacement)` with a string pattern: only the first
  // occurrence is replaced, wherever it is.

  /** `pat` occurs in `s` at position `j`. */
  predicate OccursAt(s: string, pat: string, j: nat)
  {
    j + |pat| <= |s| && s[j..j + |pat|] == pat
  }

  /** The first position at or after `from` where `pat` occurs in `s`. */
  function IndexOfFrom(s: string, pat: string, from: nat): (r: Option<nat>)
    decreases |s| - from
    ensures r.Some? ==> from <= r.value && OccursAt(s, pat, r.value)
    ensures r.Some? ==> forall j: nat :: from <= j < r.value ==> !OccursAt(s, pat, j)
    ensures r.None? ==> forall j: nat :: from <= j ==> !OccursAt(s, pat, j)
  {
    if from + |pat| > |s| then None
    else if s[from..from + |pat|] == pat then Some(from)
    else IndexOfFrom(s, pat, from + 1)
  }

  /** `s.replace(pat, rep)`: the first occurrence of `pat` is replaced, if there is one. */
  function ReplaceFirst(s: string, pat: string, rep: string): (r: string)
    ensures (forall j: nat :: !OccursAt(s, pat, j)) ==> r == s
    ensures forall i: nat :: OccursAt(s, pat, i) && (forall j: nat :: j < i ==> !OccursAt(s, pat, j)) ==>
      r == s[..i] + rep + s[i + |pat|..]
  {
    match IndexOfFrom(s, pat, 0)
    case None => s
    case Some(i) => s[..i] + rep + s[i + |pat|..]
  }

  /** Removing a pattern that the string starts with leaves the rest of the string. */
  lemma ReplaceLeadingPattern(pat: string, rest: string)
    ensures ReplaceFirst(pat + rest, pat, "") == rest
  {
    assert OccursAt(pat + rest, pat, 0);
    assert (pat + rest)[|pat|..] == rest;
  }

  // ---------------------------------------------------------------------------
  // Decimal notation: `${n}` for an integer, and its inverse.

  function DigitChar(d: nat): (c: char)
    requires d < 10
    ensures IsDigit(c)
  {
    ('0' as int + d) as char
  }

  function DigitValue(c: char): (d: nat)
    requires IsDigit(c)
    ensures d < 10 && DigitChar(d) == c
  {
    (c as int - '0' as int) as nat
  }

  /** The decimal notation of a natural number, without leading zeros. */
  function NatToDecimal(n: nat): (s: string)
    ensures |s| >= 1
    ensures forall i :: 0 <= i < |s| ==> IsDigit(s[i])
    ensures s[0] == '0' ==> n == 0
  {
    if n < 10 then [DigitChar(n)] else NatToDecimal(n / 10) + [DigitChar(n % 10)]
  }

  /** The decimal notation of an integer (`String(i)`). */
  function IntToDecimal(i: int): (s: string)
  {
    if i < 0 then "-" + NatToDecimal(-i) else NatToDecimal(i)
  }

  /** The value of a string of decimal digits, most significant first. */
  function DigitsValue(s: string): (n: nat)
    requires forall i :: 0 <= i < |s| ==> IsDigit(s[i])
  {
    if s == [] then 0 else DigitsValue(s[..|s| - 1]) * 10 + DigitValue(s[|s| - 1])
  }

  /** Reading back the decimal notation of `n` gives `n`. */
  lemma {:induction false} NatToDecimalRoundTrip(n: nat)
    ensures DigitsValue(NatToDecimal(n)) == n
  {
    var s := NatToDecimal(n);
    if n >= 10 {
      var head := NatToDecimal(n / 10);
      assert s == head + [DigitChar(n % 10)];
      assert s[..|s| - 1] == head;
      NatToDecimalRoundTrip(n / 10);
      assert DigitValue(s[|s| - 1]) == n % 10;
    }
  }

  /** Three-digit numbers have three-character notations. */
  lemma NatToDecimalThreeDigits(n: nat)
    requires 100 <= n <= 999
    ensures |NatToDecimal(n)| == 3
  {
    assert NatToDecimal(n / 100) == [DigitChar(n / 100)];
    assert NatToDecimal(n / 10) == NatToDecimal(n / 10 / 10) + [DigitChar(n / 10 % 10)];
  }

  /** The length of the longest prefix of `s` made of decimal digits. */
  function DigitPrefixLength(s: string): (k: nat)
    ensures k <= |s|
    ensures forall i :: 0 <= i < k ==> IsDigit(s[i])
    ensures k < |s| ==> !IsDigit(s[k])
  {
    if s == [] || !IsDigit(s[0]) then 0 else 1 + DigitPrefixLength(s[1..])
  }

  /**
   * `parseInt(s)` for a string without leading white space or a `0x` prefix:
   * an optional sign, then the longest run of digits; no digit at all is `NaN`,
   * written `None`.
   */
  function ParseInt(s: string): (r: Option<int>)
    ensures r.None? <==> DigitPrefixLength(if s != [] && (s[0] == '-' || s[0] == '+') then s[1..] else s) == 0
  {
    var signed := s != [] && (s[0] == '-' || s[0] == '+');
    var body := if signed then s[1..] else s;
    var k := DigitPrefixLength(body);
    if k == 0 then None
    else
      var magnitude: int := DigitsValue(body[..k]);
      var value: int := if signed && s[0] == '-' then -magnitude else magnitude;
      Some(value)
  }

  /** `parseInt` reads back what `String(i)` writes. */
  lemma ParseIntRoundTrip(i: int)
    ensures ParseInt(IntToDecimal(i)) == Some(i)
  {
    var n: nat := if i < 0 then -i else i;
    NatToDecimalRoundTrip(n);
    if i < 0 {
      ParseIntNegatedDigits(NatToDecimal(n));
    } else {
      ParseIntDigits(NatToDecimal(n));
    }
  }

  /** A non-empty run of digits is read whole. */
  lemma ParseIntDigits(d: string)
    requires |d| > 0 && forall i :: 0 <= i < |d| ==> IsDigit(d[i])
    ensures ParseInt(d) == Some(DigitsValue(d) as int)
  {
    DigitPrefixAll(d);
    assert d[..|d|] == d;
    assert d[0] != '-' && d[0] != '+';
  }

  /** A minus sign followed by a non-empty run of digits is read whole, negated. */
  lemma ParseIntNegatedDigits(d: string)
    requires |d| > 0 && forall i :: 0 <= i < |d| ==> IsDigit(d[i])
    ensures ParseInt("-" + d) == Some(-(DigitsValue(d) as int))
  {
    var s := "-" + d;
    assert s[0] == '-';
    assert s[1..] == d;
    DigitPrefixAll(d);
    assert d[..|d|] == d;
  }

  /** A string of digits is its own longest digit prefix. */
  lemma {:induction false} DigitPrefixAll(s: string)
    requires forall i :: 0 <= i < |s| ==> IsDigit(s[i])
    ensures DigitPrefixLength(s) == |s|
  {
    if s != [] {
      DigitPrefixAll(s[1..]);
    }
  }

  // ---------------------------------------------------------------------------
  // `buffer.toString("hex")` and `toUpperCase()`.

  function LowerHexDigit(d: nat): (c: char)
    requires d < 16
    ensures IsLowerHex(c)
  {
    "0123456789abcdef"[d]
  }

  /** `toString("hex")` of a byte buffer: two lower-case digits per byte, high nibble first. */
  function HexOfBytes(bytes: seq<byte>): (s: string)
    ensures |s| == 2 * |bytes|
    ensures forall i :: 0 <= i < |s| ==> IsLowerHex(s[i])
  {
    if bytes == [] then []
    else [LowerHexDigit(bytes[0] / 16), LowerHexDigit(bytes[0] % 16)] + HexOfBytes(bytes[1..])
  }

  /** `toUpperCase()`, on the characters a hexadecimal string can hold. */
  function UpperChar(c: char): (u: char)
    ensures IsLowerHex(c) ==> IsUpperHex(u)
  {
    if 'a' <= c <= 'z' then (c as int - 'a' as int + 'A' as int) as char else c
  }

  function ToUpper(s: string): (u: string)
    ensures |u| == |s|
    ensures forall i :: 0 <= i < |s| ==> u[i] == UpperChar(s[i])
    ensures forall i :: 0 <= i < |s| && IsLowerHex(s[i]) ==> IsUpperHex(u[i])
    ensures forall i :: 0 <= i < |s| && !('a' <= s[i] <= 'z') ==> u[i] == s[i]
  {
    seq(|s|, i requires 0 <= i < |s| => UpperChar(s[i]))
  }
}

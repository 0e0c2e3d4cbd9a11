/**
 * The pieces of JavaScript's string library that the form screens rely on:
 * `trim`, the regular-expression class `\s`, `toLowerCase`, the decimal
 * `toString` of an integer, `padStart(2, '0')`, `split` on one character and
 * `parseInt`. Strings are sequences of characters.
 */
module JsText {
  import opened Base

  /** WhiteSpace and LineTerminator of ECMAScript: what `trim` strips and `\s` matches. */
  predicate IsSpace(c: char) {
    || c == '\t' || c == '\n' || c == '\U{000B}' || c == '\U{000C}' || c == '\r' || c == ' '
    || c == '\U{00A0}' || c == '\U{1680}' || ('\U{2000}' <= c <= '\U{200A}')
    || c == '\U{2028}' || c == '\U{2029}' || c == '\U{202F}' || c == '\U{205F}'
    || c == '\U{3000}' || c == '\U{FEFF}'
  }

  /** The characters that the regular-expression wildcard `.` does not match. */
  predicate IsLineTerminator(c: char) {
    c == '\n' || c == '\r' || c == '\U{2028}' || c == '\U{2029}'
  }

  /** `trimStart`: drops the leading white space. */
  function TrimStart(s: string): string {
    if s != [] && IsSpace(s[0]) then TrimStart(s[1..]) else s
  }

  /** `trimEnd`: drops the trailing white space. */
  function TrimEnd(s: string): string {
    if s != [] && IsSpace(s[|s| - 1]) then TrimEnd(s[..|s| - 1]) else s
  }

  /** `trim`: drops the white space at both ends. */
  function Trim(s: string): string {
    TrimEnd(TrimStart(s))
  }

  /** `trimStart` keeps a suffix of its input, cuts only white space, and stops at the first other character. */
  lemma {:induction false} TrimStartCutsSpace(s: string)
    ensures var r := TrimStart(s);
      && |r| <= |s| && r == s[|s| - |r|..]
      && (forall i :: 0 <= i < |s| - |r| ==> IsSpace(s[i]))
      && (r != [] ==> !IsSpace(r[0]))
  {
    if s != [] && IsSpace(s[0]) {
      var t := s[1..];
      TrimStartCutsSpace(t);
      var r := TrimStart(t);
      assert TrimStart(s) == r;
      assert s[|s| - |r|..] == t[|t| - |r|..];
      forall i | 1 <= i < |s| - |r| ensures IsSpace(s[i]) {
        assert s[i] == t[i - 1];
      }
    }
  }

  /** `trimEnd` keeps a prefix of its input, cuts only white space, and stops at the last other character. */
  lemma {:induction false} TrimEndCutsSpace(s: string)
    ensures var r := TrimEnd(s);
      && |r| <= |s| && r == s[..|r|]
      && (forall i :: |r| <= i < |s| ==> IsSpace(s[i]))
      && (r != [] ==> !IsSpace(r[|r| - 1]))
  {
    if s != [] && IsSpace(s[|s| - 1]) {
      TrimEndCutsSpace(s[..|s| - 1]);
    }
  }

  /** `r` is what is left of `s` once `k` characters of white space are cut from its front and the rest from its back. */
  predicate StrippedAt(s: string, k: int, r: string) {
    && 0 <= k <= |s| - |r| && r == s[k..k + |r|]
    && (forall i :: 0 <= i < k ==> IsSpace(s[i]))
    && (forall i :: k + |r| <= i < |s| ==> IsSpace(s[i]))
  }

  /**
   * `trim` keeps a slice of its input and cuts only white space; what is
   * left neither starts nor ends with white space, and it is empty exactly
   * when the input is blank.
   */
  lemma TrimIsStripped(s: string)
    ensures exists k :: StrippedAt(s, k, Trim(s))
    ensures Trim(s) != [] ==> !IsSpace(Trim(s)[0]) && !IsSpace(Trim(s)[|Trim(s)| - 1])
    ensures Trim(s) == [] <==> forall i :: 0 <= i < |s| ==> IsSpace(s[i])
  {
    var t := TrimStart(s);
    TrimStartCutsSpace(s);
    TrimEndCutsSpace(t);
    var r := TrimEnd(t);
    var k := |s| - |t|;
    assert Trim(s) == r;
    assert r == s[k..k + |r|];
    assert forall i :: k + |r| <= i < |s| ==> s[i] == t[i - k];
    assert StrippedAt(s, k, r);
    if r != [] {
      assert r[0] == t[0] == s[k];
    }
  }

  /**
   * The length rule of the form validators, `s.trim() === "" || s.trim().length < n`:
   * blank after trimming, or shorter than `n` characters.
   */
  predicate TrimmedTooShort(s: string, n: nat) {
    |Trim(s)| == 0 || |Trim(s)| < n
  }

  /** Text that neither starts nor ends with white space is its own `trim`. */
  lemma TrimOfUnpadded(s: string)
    requires s != [] ==> !IsSpace(s[0]) && !IsSpace(s[|s| - 1])
    ensures Trim(s) == s
  {
    assert TrimStart(s) == s;
  }

  /** `toLowerCase` on the ASCII letters. */
  function LowerChar(c: char): char {
    if 'A' <= c <= 'Z' then (c as int + 32) as char else c
  }

  function ToLower(s: string): (r: string)
    ensures |r| == |s|
    ensures forall i :: 0 <= i < |s| ==> !('A' <= r[i] <= 'Z')
    ensures forall i :: 0 <= i < |s| ==>
              r[i] == s[i] || ('A' <= s[i] <= 'Z' && r[i] as int == s[i] as int + 32)
  {
    seq(|s|, i requires 0 <= i < |s| => LowerChar(s[i]))
  }

  predicate IsDigit(c: char) {
    '0' <= c <= '9'
  }

  predicate AllDigits(s: string) {
    forall i :: 0 <= i < |s| ==> IsDigit(s[i])
  }

  /** A non-empty run of decimal digits. */
  predicate IsNumeral(s: string) {
    s != [] && AllDigits(s)
  }

  function DigitChar(d: nat): (c: char)
    requires d < 10
    ensures IsDigit(c) && c as int - '0' as int == d
  {
    (d + '0' as int) as char
  }

  /** The value of a string of decimal digits, read most significant digit first. */
  function ParseDigits(s: string): nat
    requires AllDigits(s)
  {
    if s == [] then 0 else 10 * ParseDigits(s[..|s| - 1]) + (s[|s| - 1] as int - '0' as int)
  }

  /** `n.toString()` for a non-negative integer. */
  function NatToString(n: nat): (s: string)
    ensures IsNumeral(s) && ParseDigits(s) == n
    ensures |s| == 1 <==> n < 10
    ensures 10 <= n < 100 ==> |s| == 2
  {
    if n < 10 then [DigitChar(n)]
    else
      var s := NatToString(n / 10) + [DigitChar(n % 10)];
      assert s[..|s| - 1] == NatToString(n / 10);
      s
  }

  /** `n.toString()` for any integer: the digits of its magnitude, after a `-` when it is negative. */
  function IntToString(n: int): (s: string)
    ensures n >= 0 ==> IsNumeral(s) && ParseDigits(s) == n
    ensures n < 0 ==> |s| >= 2 && s[0] == '-' && IsNumeral(s[1..]) && ParseDigits(s[1..]) == -n
  {
    if n < 0 then
      var s := "-" + NatToString(-n);
      assert s[1..] == NatToString(-n);
      s
    else NatToString(n)
  }

  /** `padStart(2, '0')`. */
  function PadStart2(s: string): (r: string)
    ensures |r| == if |s| < 2 then 2 else |s|
    ensures r[|r| - |s|..] == s && forall i :: 0 <= i < |r| - |s| ==> r[i] == '0'
  {
    if |s| == 0 then "00" else if |s| == 1 then "0" + s else s
  }

  /** A number below 100 padded to two places reads back as itself. */
  lemma {:induction false} PadStart2OfSmall(n: nat)
    requires n < 100
    ensures |PadStart2(NatToString(n))| == 2
    ensures IsNumeral(PadStart2(NatToString(n))) && ParseDigits(PadStart2(NatToString(n))) == n
  {
    var s := NatToString(n);
    if n < 10 {
      var p := PadStart2(s);
      assert p == ['0', s[0]];
      assert p[..1] == ['0'];
      assert ParseDigits(p[..1]) == 0 by {
        assert p[..1][..0] == [];
      }
    }
  }

  /** The longest prefix of `s` made of decimal digits. */
  function DigitPrefix(s: string): (p: string)
    ensures AllDigits(p) && |p| <= |s| && p == s[..|p|]
    ensures |p| < |s| ==> !IsDigit(s[|p|])
  {
    if s != [] && IsDigit(s[0]) then [s[0]] + DigitPrefix(s[1..]) else []
  }

  /**
   * `parseInt(s)` without a radix: leading white space is skipped, one sign
   * is read, then the longest run of decimal digits; `None` stands for NaN.
   */
  function ParseInt(s: string): Option<int> {
    var t := TrimStart(s);
    var unsigned := if t != [] && (t[0] == '-' || t[0] == '+') then t[1..] else t;
    var digits := DigitPrefix(unsigned);
    if digits == [] then None
    else if t[0] == '-' then Some(-(ParseDigits(digits) as int))
    else Some(ParseDigits(digits))
  }

  /** `parseInt` reads back what `toString` wrote. */
  lemma ParseIntOfIntToString(n: int)
    ensures ParseInt(IntToString(n)) == Some(n)
  {
    var s := IntToString(n);
    var digits := NatToString(if n < 0 then -n else n);
    assert !IsSpace(s[0]) by {
      assert s[0] == '-' || IsDigit(s[0]);
    }
    assert TrimStart(s) == s;
    DigitPrefixOfNumeral(digits);
    if n < 0 {
      assert s[1..] == digits;
    } else {
      assert s == digits;
    }
  }

  lemma {:induction false} DigitPrefixOfNumeral(s: string)
    requires AllDigits(s)
    ensures DigitPrefix(s) == s
  {
    if s != [] {
      DigitPrefixOfNumeral(s[1..]);
      assert [s[0]] + s[1..] == s;
    }
  }

  lemma {:induction false} DigitPrefixStops(p: string, rest: string)
    requires AllDigits(p) && (rest != [] ==> !IsDigit(rest[0]))
    ensures DigitPrefix(p + rest) == p
  {
    if p != [] {
      DigitPrefixStops(p[1..], rest);
      assert (p + rest)[1..] == p[1..] + rest;
      assert [p[0]] + p[1..] == p;
    }
  }

  /** `parseInt` reads the leading digits and ignores whatever follows them, so "4.5" and "4abc" read as 4. */
  lemma ParseIntIgnoresTail(p: string, rest: string)
    requires IsNumeral(p) && (rest != [] ==> !IsDigit(rest[0]))
    ensures ParseInt(p + rest) == Some(ParseDigits(p))
  {
    var t := p + rest;
    assert IsDigit(t[0]);
    assert TrimStart(t) == t;
    DigitPrefixStops(p, rest);
  }

  /**
   * `Number(s)` for the texts that denote integers: the text is trimmed,
   * blank text is 0, and what is left is decimal digits after at most one
   * sign. `None` stands for NaN.
   */
  function StringToNumber(s: string): Option<int> {
    var t := Trim(s);
    if t == [] then Some(0)
    else if (t[0] == '-' || t[0] == '+') && IsNumeral(t[1..]) then
      Some(if t[0] == '-' then -(ParseDigits(t[1..]) as int) else ParseDigits(t[1..]))
    else if IsNumeral(t) then Some(ParseDigits(t))
    else None
  }

  /** `Number` reads back every integer that `toString` writes. */
  lemma StringToNumberOfIntToString(n: int)
    ensures StringToNumber(IntToString(n)) == Some(n)
  {
    var s := IntToString(n);
    assert !IsDigit(s[0]) ==> s[0] == '-';
    assert IsDigit(s[|s| - 1]);
    TrimOfUnpadded(s);
  }

  /** A run of decimal digits is read as its value. */
  lemma StringToNumberOfNumeral(p: string)
    requires IsNumeral(p)
    ensures StringToNumber(p) == Some(ParseDigits(p))
  {
    assert IsDigit(p[0]) && IsDigit(p[|p| - 1]);
    TrimOfUnpadded(p);
  }

  /** `s.split(sep)` with a one-character separator. */
  function Split(s: string, sep: char): (parts: seq<string>)
    ensures |parts| >= 1
    ensures forall i :: 0 <= i < |parts| ==> sep !in parts[i]
  {
    if s == [] then [[]]
    else
      var rest := Split(s[1..], sep);
      if s[0] == sep then [[]] + rest else [[s[0]] + rest[0]] + rest[1..]
  }

  /** `parts.join(sep)`. */
  function Join(parts: seq<string>, sep: char): string {
    if |parts| == 0 then []
    else if |parts| == 1 then parts[0]
    else parts[0] + [sep] + Join(parts[1..], sep)
  }

  /** Splitting loses nothing: joining the pieces again gives the string back. */
  lemma {:induction false} JoinSplit(s: string, sep: char)
    ensures Join(Split(s, sep), sep) == s
  {
    if s != [] {
      var rest := Split(s[1..], sep);
      JoinSplit(s[1..], sep);
      if s[0] != sep {
        var parts := Split(s, sep);
        if |rest| > 1 {
          assert parts[1..] == rest[1..];
        }
      }
    }
  }

  /** A string without the separator splits into itself alone. */
  lemma {:induction false} SplitWithoutSeparator(a: string, sep: char)
    requires sep !in a
    ensures Split(a, sep) == [a]
  {
    if a != [] {
      assert a[0] != sep;
      SplitWithoutSeparator(a[1..], sep);
      assert [a[0]] + a[1..] == a;
    }
  }

  /** The first separator ends the first piece. */
  lemma {:induction false} SplitAtSeparator(a: string, sep: char, b: string)
    requires sep !in a
    ensures Split(a + [sep] + b, sep) == [a] + Split(b, sep)
  {
    if a != [] {
      var s := a + [sep] + b;
      assert s[0] == a[0] != sep;
      assert s[1..] == a[1..] + [sep] + b;
      SplitAtSeparator(a[1..], sep, b);
      assert [a[0]] + a[1..] == a;
    } else {
      assert (a + [sep] + b)[1..] == b;
    }
  }
}

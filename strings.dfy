/** The string primitives the page scripts rely on: ASCII case folding
    (`toLowerCase` and the `i` flag of a regular expression or of a CSS
    attribute selector, on the ASCII letters that every pattern here uses),
    substring search, `String.prototype.trim`, `parseInt`, the class-token
    split behind `classList`, and the decimal rendering of an integer in a
    template literal. */
module Strings {
  import opened Wrappers

  /** An ASCII upper-case letter maps to its lower-case form; every other
      character is kept. This is `toLowerCase` on ASCII text only. */
  function LowerChar(c: char): char
  {
    if 'A' <= c <= 'Z' then (c as int + 32) as char else c
  }

  function Lower(s: string): (r: string)
    ensures |r| == |s|
  {
    if s == [] then [] else [LowerChar(s[0])] + Lower(s[1..])
  }

  /** `Lower` maps every character on its own. */
  lemma {:induction false} LowerChars(s: string)
    ensures forall i :: 0 <= i < |s| ==> Lower(s)[i] == LowerChar(s[i])
  {
    if s != [] {
      LowerChars(s[1..]);
      assert Lower(s) == [LowerChar(s[0])] + Lower(s[1..]);
    }
  }

  predicate StartsWith(s: string, prefix: string)
  {
    |prefix| <= |s| && s[..|prefix|] == prefix
  }

  /** `part` occurs somewhere in `s` (an empty `part` occurs everywhere). */
  predicate Contains(s: string, part: string)
    decreases |s|
  {
    StartsWith(s, part) || (s != [] && Contains(s[1..], part))
  }

  lemma {:induction false} ContainsAt(s: string, part: string, i: nat)
    requires i + |part| <= |s| && s[i..i + |part|] == part
    ensures Contains(s, part)
  {
    if i > 0 {
      assert s[1..][i - 1..i - 1 + |part|] == part;
      ContainsAt(s[1..], part, i - 1);
    }
  }

  /** WhiteSpace and LineTerminator of ECMAScript: what `trim` and `parseInt`
      skip. */
  predicate IsJsSpace(c: char)
  {
    c == '\t' || c == '\n' || c == '\U{B}' || c == '\U{C}' || c == '\r' || c == ' '
    || c == '\U{A0}' || c == '\U{1680}' || ('\U{2000}' <= c <= '\U{200A}')
    || c == '\U{2028}' || c == '\U{2029}' || c == '\U{202F}' || c == '\U{205F}'
    || c == '\U{3000}' || c == '\U{FEFF}'
  }

  function TrimStart(s: string): (r: string)
    ensures |r| <= |s| && r == s[|s| - |r|..]
    ensures forall i :: 0 <= i < |s| - |r| ==> IsJsSpace(s[i])
    ensures r != [] ==> !IsJsSpace(r[0])
  {
    if s != [] && IsJsSpace(s[0]) then TrimStart(s[1..]) else s
  }

  function TrimEnd(s: string): (r: string)
    ensures |r| <= |s| && r == s[..|r|]
    ensures forall i :: |r| <= i < |s| ==> IsJsSpace(s[i])
    ensures r != [] ==> !IsJsSpace(r[|r| - 1])
  {
    if s != [] && IsJsSpace(s[|s| - 1]) then TrimEnd(s[..|s| - 1]) else s
  }

  /** `String.prototype.trim`. */
  function Trim(s: string): (r: string)
    ensures r != [] ==> !IsJsSpace(r[0]) && !IsJsSpace(r[|r| - 1])
  {
    TrimEnd(TrimStart(s))
  }

  predicate IsDecimalDigit(c: char) { '0' <= c <= '9' }

  predicate IsHexDigit(c: char) { IsDecimalDigit(c) || 'a' <= c <= 'f' || 'A' <= c <= 'F' }

  predicate IsDigitIn(c: char, hex: bool) { if hex then IsHexDigit(c) else IsDecimalDigit(c) }

  function DigitValue(c: char): nat
  {
    if IsDecimalDigit(c) then c as int - '0' as int
    else if 'a' <= c <= 'f' then c as int - 'a' as int + 10
    else if 'A' <= c <= 'F' then c as int - 'A' as int + 10
    else 0
  }

  /** Length of the longest prefix of `s` made of digits of the radix. */
  function DigitRun(s: string, hex: bool): (n: nat)
    ensures n <= |s|
    ensures forall i :: 0 <= i < n ==> IsDigitIn(s[i], hex)
    ensures n < |s| ==> !IsDigitIn(s[n], hex)
  {
    if s == [] || !IsDigitIn(s[0], hex) then 0 else 1 + DigitRun(s[1..], hex)
  }

  /** The value of a digit string read most significant digit first. */
  function ValueOf(digits: string, base: nat): nat
  {
    if digits == [] then 0
    else ValueOf(digits[..|digits| - 1], base) * base + DigitValue(digits[|digits| - 1])
  }

  predicate HasHexPrefix(u: string)
  {
    |u| >= 2 && u[0] == '0' && (u[1] == 'x' || u[1] == 'X')
  }

  /** The value of the longest run of digits at the start of `body`, or
      `None` when there is none. */
  function ParseDigits(body: string, hex: bool): Option<nat>
  {
    var n := DigitRun(body, hex);
    if n == 0 then None else Some(ValueOf(body[..n], if hex then 16 else 10))
  }

  /** Unsigned part of `parseInt`: `parseInt(s)` without a radix reads a
      `0x`/`0X` prefix as hexadecimal; `parseInt(s, 10)` never does. */
  function ParseUnsigned(u: string, radix10: bool): Option<nat>
  {
    if !radix10 && HasHexPrefix(u) then ParseDigits(u[2..], true) else ParseDigits(u, false)
  }

  /** `parseInt(s, 10)` when `radix10` holds and `parseInt(s)` otherwise;
      `None` is `NaN`. Leading white space and one sign are skipped, then the
      longest run of digits is read and the rest of the string is ignored. */
  function ParseInt(s: string, radix10: bool): Option<int>
  {
    ParseSigned(TrimStart(s), radix10)
  }

  /** `parseInt` after the leading white space: one optional sign, then the
      unsigned part. */
  function ParseSigned(t: string, radix10: bool): Option<int>
  {
    var signed := t != [] && (t[0] == '-' || t[0] == '+');
    match ParseUnsigned(if signed then t[1..] else t, radix10)
    case None => None
    case Some(v) => Some(if signed && t[0] == '-' then -(v as int) else v as int)
  }

  function DecimalDigit(d: nat): char
    requires d < 10
  {
    ('0' as int + d) as char
  }

  /** The decimal rendering JavaScript gives a non-negative integer. */
  function NatToDecimal(n: nat): (s: string)
    ensures s != []
    ensures forall i :: 0 <= i < |s| ==> IsDecimalDigit(s[i])
    decreases n
  {
    if n < 10 then [DecimalDigit(n)] else NatToDecimal(n / 10) + [DecimalDigit(n % 10)]
  }

  /** `${n}` for an integer `n`. */
  function IntToDecimal(n: int): string
  {
    if n < 0 then "-" + NatToDecimal(-n) else NatToDecimal(n)
  }

  lemma {:induction false} NatToDecimalValue(n: nat)
    ensures ValueOf(NatToDecimal(n), 10) == n
    decreases n
  {
    var s := NatToDecimal(n);
    if n >= 10 {
      NatToDecimalValue(n / 10);
      assert s[..|s| - 1] == NatToDecimal(n / 10);
    }
  }

  lemma {:induction false} DigitRunOfPrefix(digits: string, rest: string, hex: bool)
    requires forall i :: 0 <= i < |digits| ==> IsDigitIn(digits[i], hex)
    requires rest == [] || !IsDigitIn(rest[0], hex)
    ensures DigitRun(digits + rest, hex) == |digits|
    decreases |digits|
  {
    if digits != [] {
      assert (digits + rest)[1..] == digits[1..] + rest;
      DigitRunOfPrefix(digits[1..], rest, hex);
    }
  }

  lemma {:induction false} LeadingDigitNonZero(m: nat)
    requires m >= 1
    ensures NatToDecimal(m)[0] != '0'
    decreases m
  {
    if m >= 10 {
      LeadingDigitNonZero(m / 10);
    }
  }

  lemma ParseRenderedNat(m: nat, suffix: string, radix10: bool)
    requires suffix == [] || !IsDecimalDigit(suffix[0])
    requires !radix10 && m == 0 ==> suffix == [] || (suffix[0] != 'x' && suffix[0] != 'X')
    ensures ParseUnsigned(NatToDecimal(m) + suffix, radix10) == Some(m)
  {
    var digits := NatToDecimal(m);
    var u := digits + suffix;
    if m >= 1 {
      LeadingDigitNonZero(m);
    }
    assert !(!radix10 && HasHexPrefix(u));
    DigitRunOfPrefix(digits, suffix, false);
    assert u[..|digits|] == digits;
    NatToDecimalValue(m);
  }

  /** Reading back a rendered integer, followed by anything that does not
      extend the number (such as a CSS unit), gives the integer back. */
  lemma ParseRendered(n: int, suffix: string, radix10: bool)
    requires suffix == [] || !IsDecimalDigit(suffix[0])
    requires !radix10 && n == 0 ==> suffix == [] || (suffix[0] != 'x' && suffix[0] != 'X')
    ensures ParseInt(IntToDecimal(n) + suffix, radix10) == Some(n)
  {
    var m: nat := if n < 0 then -n else n;
    ParseRenderedNat(m, suffix, radix10);
    if n < 0 {
      ParseRenderedNegative(m, suffix, radix10);
      assert IntToDecimal(n) == "-" + NatToDecimal(m);
    } else {
      ParseRenderedNonNegative(m, suffix, radix10);
    }
  }

  lemma ParseRenderedNegative(m: nat, suffix: string, radix10: bool)
    requires ParseUnsigned(NatToDecimal(m) + suffix, radix10) == Some(m)
    ensures ParseInt("-" + NatToDecimal(m) + suffix, radix10) == Some(-(m as int))
  {
    var u := NatToDecimal(m) + suffix;
    var s := ['-'] + u;
    assert IsDecimalDigit(u[0]);
    assert "-" + NatToDecimal(m) + suffix == s;
    SkipNoSpace(s);
    ParseMinus(u, m, radix10);
  }

  lemma ParseRenderedNonNegative(m: nat, suffix: string, radix10: bool)
    requires ParseUnsigned(NatToDecimal(m) + suffix, radix10) == Some(m)
    ensures ParseInt(NatToDecimal(m) + suffix, radix10) == Some(m)
  {
    var u := NatToDecimal(m) + suffix;
    assert IsDecimalDigit(u[0]);
    SkipNoSpace(u);
    ParseUnsignedDigits(u, m, radix10);
  }

  /** A minus sign before digits negates what they read as. */
  lemma ParseMinus(u: string, m: nat, radix10: bool)
    requires u != [] && IsDecimalDigit(u[0]) && ParseUnsigned(u, radix10) == Some(m)
    ensures ParseSigned(['-'] + u, radix10) == Some(-(m as int))
  {
    var t := ['-'] + u;
    assert t[0] == '-' && t[1..] == u;
  }

  /** Digits with no sign read as themselves. */
  lemma ParseUnsignedDigits(u: string, m: nat, radix10: bool)
    requires u != [] && IsDecimalDigit(u[0]) && ParseUnsigned(u, radix10) == Some(m)
    ensures ParseSigned(u, radix10) == Some(m)
  {
    assert u[0] != '-' && u[0] != '+';
  }

  lemma SkipNoSpace(s: string)
    requires s != [] && (s[0] == '-' || IsDecimalDigit(s[0]))
    ensures TrimStart(s) == s
  {
  }

  /** The set of white-space characters of the DOM standard, which separate
      the tokens of a `class` attribute. */
  predicate IsAsciiSpace(c: char)
  {
    c == '\t' || c == '\n' || c == '\U{C}' || c == '\r' || c == ' '
  }

  function WordLength(s: string): (n: nat)
    ensures n <= |s|
    ensures forall i :: 0 <= i < n ==> !IsAsciiSpace(s[i])
    ensures n < |s| ==> IsAsciiSpace(s[n])
  {
    if s == [] || IsAsciiSpace(s[0]) then 0 else 1 + WordLength(s[1..])
  }

  /** The tokens of a `class` attribute, as `classList` holds them. */
  function Tokens(s: string): (ts: seq<string>)
    ensures forall k :: 0 <= k < |ts| ==> ts[k] != [] && forall i :: 0 <= i < |ts[k]| ==> !IsAsciiSpace(ts[k][i])
    decreases |s|
  {
    if s == [] then []
    else if IsAsciiSpace(s[0]) then Tokens(s[1..])
    else
      var n := WordLength(s);
      [s[..n]] + Tokens(s[n..])
  }

  /** `w` stands at position `i` of `s` as a token: a non-empty run of
      characters that are not white space, with white space or an end of
      `s` on either side. */
  predicate TokenAt(s: string, i: nat, w: string)
  {
    && w != [] && i + |w| <= |s| && s[i..i + |w|] == w
    && (forall k :: 0 <= k < |w| ==> !IsAsciiSpace(w[k]))
    && (i == 0 || IsAsciiSpace(s[i - 1]))
    && (i + |w| == |s| || IsAsciiSpace(s[i + |w|]))
  }

  /** The tokens are exactly the maximal runs of non-white-space characters
      of the attribute, which is what `classList.contains` tests against. */
  lemma TokensExact(s: string, w: string)
    ensures w in Tokens(s) <==> exists i: nat :: TokenAt(s, i, w)
  {
    if w in Tokens(s) {
      TokensSound(s, w);
    }
    if exists i: nat :: TokenAt(s, i, w) {
      var i: nat :| TokenAt(s, i, w);
      TokensComplete(s, i, w);
    }
  }

  /** Every token stands somewhere in the attribute. */
  lemma {:induction false} TokensSound(s: string, w: string)
    requires w in Tokens(s)
    ensures exists i: nat :: TokenAt(s, i, w)
    decreases |s|
  {
    var k := if IsAsciiSpace(s[0]) then 1 else WordLength(s);
    if k == WordLength(s) && w == s[..k] {
      assert TokenAt(s, 0, w);
    } else {
      var t := s[k..];
      assert w in Tokens(t);
      TokensSound(t, w);
      var j: nat :| TokenAt(t, j, w);
      TokenShifts(s, k, j, w);
    }
  }

  /** A token of a suffix of `s` that starts after white space is a token
      of `s`. */
  lemma TokenShifts(s: string, k: nat, j: nat, w: string)
    requires k <= |s| && TokenAt(s[k..], j, w)
    requires (0 < k && IsAsciiSpace(s[k - 1])) || (k < |s| && IsAsciiSpace(s[k]))
    ensures TokenAt(s, j + k, w)
  {
    assert s[j + k..j + k + |w|] == s[k..][j..j + |w|];
    if j == 0 {
      assert w[0] == s[k];
    }
  }

  /** Every run that stands as a token in the attribute is one of its
      tokens. */
  lemma {:induction false} TokensComplete(s: string, i: nat, w: string)
    requires TokenAt(s, i, w)
    ensures w in Tokens(s)
    decreases |s|
  {
    if IsAsciiSpace(s[0]) {
      var t := s[1..];
      assert w[0] == s[i];
      assert t[i - 1..i - 1 + |w|] == s[i..i + |w|];
      TokensComplete(t, i - 1, w);
    } else {
      var n := WordLength(s);
      var t := s[n..];
      assert Tokens(s) == [s[..n]] + Tokens(t);
      if i == 0 {
        WordAtStart(s, w);
      } else {
        assert n <= i - 1;
        assert t[i - n..i - n + |w|] == s[i..i + |w|];
        TokensComplete(t, i - n, w);
      }
    }
  }

  /** The token at the start of `s` is its first word. */
  lemma WordAtStart(s: string, w: string)
    requires TokenAt(s, 0, w)
    ensures w == s[..WordLength(s)]
  {
    assert forall k :: 0 <= k < |w| ==> !IsAsciiSpace(s[k]);
    assert |w| == WordLength(s);
  }
}

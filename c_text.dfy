/**
 * The pieces of the C library's text handling that the readers depend on:
 * NUL-terminated strings, the character classes of the C locale, the digit
 * runs that sscanf's %x and atoi consume, atoi itself, and the lower-case,
 * zero-padded hexadecimal that printf's %0Nx produces (the form in which the
 * lircd daemon writes its code and repeat fields).
 */
module CText {
  import opened Wrappers

  /** isspace() in the C locale: blank, tab, newline, vertical tab, form feed, carriage return. */
  predicate IsSpace(c: char) {
    c == ' ' || '\t' <= c <= '\r'
  }

  predicate IsDigit(c: char) {
    '0' <= c <= '9'
  }

  predicate IsHexDigit(c: char) {
    IsDigit(c) || 'a' <= c <= 'f' || 'A' <= c <= 'F'
  }

  /** A non-empty run of hexadecimal digits, as %x consumes and %x prints. */
  predicate IsHexRun(s: seq<char>) {
    |s| >= 1 && forall i :: 0 <= i < |s| ==> IsHexDigit(s[i])
  }

  /** A character that %s copies: neither white space nor the string terminator. */
  predicate IsWordChar(c: char) {
    !IsSpace(c) && c != '\0'
  }

  function DigitValue(c: char): (v: nat)
    requires IsDigit(c)
    ensures v < 10
  {
    c as int - '0' as int
  }

  function HexDigitValue(c: char): (v: nat)
    requires IsHexDigit(c)
    ensures v < 16
    ensures IsDigit(c) ==> v == DigitValue(c)
  {
    if IsDigit(c) then DigitValue(c)
    else if 'a' <= c <= 'f' then c as int - 'a' as int + 10
    else c as int - 'A' as int + 10
  }

  /** The lower-case digit printf uses for d. */
  function HexChar(d: nat): (c: char)
    requires d < 16
    ensures IsHexDigit(c) && HexDigitValue(c) == d
  {
    if d < 10 then ('0' as int + d) as char else ('a' as int + d - 10) as char
  }

  /** The C string a character buffer holds: everything before its first NUL. */
  function CString(s: seq<char>): (r: seq<char>)
    ensures |r| <= |s| && r == s[..|r|]
    ensures forall i :: 0 <= i < |r| ==> r[i] != '\0'
    ensures |r| < |s| ==> s[|r|] == '\0'
  {
    if s == [] || s[0] == '\0' then []
    else
      var rest := CString(s[1..]);
      assert s[..|rest| + 1] == [s[0]] + s[1..][..|rest|];
      [s[0]] + rest
  }

  /** What a conversion skips before it starts: the leading white space. */
  function SkipSpaces(s: seq<char>): (r: seq<char>)
    ensures |r| <= |s|
    ensures forall i :: 0 <= i < |s| - |r| ==> IsSpace(s[i])
    ensures r != [] ==> !IsSpace(r[0])
  {
    if s != [] && IsSpace(s[0]) then SkipSpaces(s[1..]) else s
  }

  /** The length of the longest prefix of s whose characters all satisfy p. */
  function Span(s: seq<char>, p: char -> bool): (n: nat)
    ensures n <= |s|
    ensures forall i :: 0 <= i < n ==> p(s[i])
    ensures n < |s| ==> !p(s[n])
  {
    if s != [] && p(s[0]) then 1 + Span(s[1..], p) else 0
  }

  /** A string without a NUL is its own C string. */
  lemma {:induction false} CStringWithoutNul(s: seq<char>)
    requires forall i :: 0 <= i < |s| ==> s[i] != '\0'
    ensures CString(s) == s
  {
    if s != [] {
      CStringWithoutNul(s[1..]);
      assert s == [s[0]] + s[1..];
    }
  }

  /** Leading white space is skipped up to the first non-space. */
  lemma {:induction false} SkipSpacesPad(pad: seq<char>, s: seq<char>)
    requires forall i :: 0 <= i < |pad| ==> IsSpace(pad[i])
    requires s != [] && !IsSpace(s[0])
    ensures SkipSpaces(pad + s) == s
  {
    if pad == [] {
      assert pad + s == s;
    } else {
      assert (pad + s)[1..] == pad[1..] + s;
      SkipSpacesPad(pad[1..], s);
    }
  }

  /** The run ends exactly where the characters stop satisfying p. */
  lemma {:induction false} SpanAppend(a: seq<char>, b: seq<char>, p: char -> bool)
    requires forall i :: 0 <= i < |a| ==> p(a[i])
    requires b != [] ==> !p(b[0])
    ensures Span(a + b, p) == |a|
  {
    if a != [] {
      assert (a + b)[1..] == a[1..] + b;
      SpanAppend(a[1..], b, p);
    } else {
      assert a + b == b;
    }
  }

  /** The number a run of hexadecimal digits denotes, most significant digit first. */
  function HexValue(digits: seq<char>): nat
    requires forall i :: 0 <= i < |digits| ==> IsHexDigit(digits[i])
  {
    if digits == [] then 0
    else 16 * HexValue(digits[..|digits| - 1]) + HexDigitValue(digits[|digits| - 1])
  }

  /** The number a run of decimal digits denotes, most significant digit first. */
  function DecimalValue(digits: seq<char>): nat
    requires forall i :: 0 <= i < |digits| ==> IsDigit(digits[i])
  {
    if digits == [] then 0
    else 10 * DecimalValue(digits[..|digits| - 1]) + DigitValue(digits[|digits| - 1])
  }

  /**
   * sscanf's %x on plain digits: skip white space, then take the longest run
   * of hexadecimal digits.  None when there is no digit; otherwise the value
   * and the input that follows the run.
   */
  function ScanHex(s: seq<char>): (r: Option<(nat, seq<char>)>)
    ensures r.Some? ==> |r.value.1| < |s|
  {
    var t := SkipSpaces(s);
    var n := Span(t, IsHexDigit);
    if n == 0 then None else Some((HexValue(t[..n]), t[n..]))
  }

  /**
   * sscanf's %Ns: skip white space, then copy the characters up to the next
   * white space or the end of the string, at most width of them.  None when
   * there is no such character.
   */
  function ScanString(s: seq<char>, width: nat): (r: Option<string>)
    requires width >= 1
    ensures r.Some? ==> 1 <= |r.value| <= width
    ensures r.Some? ==> forall i :: 0 <= i < |r.value| ==> IsWordChar(r.value[i])
  {
    var t := SkipSpaces(s);
    var n := Span(t, IsWordChar);
    if n == 0 then None else Some(t[..if n < width then n else width])
  }

  /** %x reads a run of digits after white space and stops at the first non-digit. */
  lemma ScanHexField(pad: seq<char>, digits: seq<char>, rest: seq<char>)
    requires forall i :: 0 <= i < |pad| ==> IsSpace(pad[i])
    requires |digits| >= 1 && forall i :: 0 <= i < |digits| ==> IsHexDigit(digits[i])
    requires rest != [] ==> !IsHexDigit(rest[0])
    ensures ScanHex(pad + (digits + rest)) == Some((HexValue(digits), rest))
  {
    var t := digits + rest;
    SkipSpacesPad(pad, t);
    SpanAppend(digits, rest, IsHexDigit);
    assert t[..|digits|] == digits && t[|digits|..] == rest;
    assert HexValue(t[..|digits|]) == HexValue(digits);
  }

  /** %Ns copies a word after white space, at most width characters of it. */
  lemma ScanStringField(pad: seq<char>, word: seq<char>, rest: seq<char>, width: nat)
    requires width >= 1
    requires forall i :: 0 <= i < |pad| ==> IsSpace(pad[i])
    requires |word| >= 1 && forall i :: 0 <= i < |word| ==> IsWordChar(word[i])
    requires rest != [] ==> !IsWordChar(rest[0])
    ensures ScanString(pad + (word + rest), width) == Some(word[..if |word| < width then |word| else width])
  {
    SkipSpacesPad(pad, word + rest);
    SpanAppend(word, rest, IsWordChar);
    var kept := if |word| < width then |word| else width;
    assert (word + rest)[..kept] == word[..kept];
  }

  /**
   * atoi(): skip white space, take an optional sign, then as many decimal
   * digits as follow; no digits at all gives 0.  (Overflow is out of reach of
   * the two-character fields the readers pass.)
   */
  function Atoi(s: seq<char>): (n: int)
    ensures n < 0 ==> SkipSpaces(s) != [] && SkipSpaces(s)[0] == '-'
    ensures SkipSpaces(s) == [] ==> n == 0
  {
    var t := SkipSpaces(s);
    if t != [] && (t[0] == '-' || t[0] == '+') then
      var digits := t[1..][..Span(t[1..], IsDigit)];
      var n: int := DecimalValue(digits);
      if t[0] == '-' then -n else n
    else
      DecimalValue(t[..Span(t, IsDigit)])
  }

  /** Two decimal digits denote what they say, and a digit followed by anything else denotes itself. */
  lemma AtoiTwoCharacters(a: char, b: char)
    requires IsDigit(a)
    ensures IsDigit(b) ==> Atoi([a, b]) == 10 * DigitValue(a) + DigitValue(b)
    ensures !IsDigit(b) ==> Atoi([a, b]) == DigitValue(a)
  {
    var s := [a, b];
    assert SkipSpaces(s) == s;
    assert DecimalValue([a]) == DigitValue(a) by {
      assert [a][..0] == [];
    }
    if IsDigit(b) {
      assert Span(s, IsDigit) == 2;
      assert s[..2][..1] == [a];
    } else {
      assert Span(s, IsDigit) == 1;
    }
  }

  function Pow16(w: nat): (p: nat)
    ensures p >= 1
  {
    if w == 0 then 1 else 16 * Pow16(w - 1)
  }

  /** printf("%0*x", width, n): lower-case hexadecimal, zero-padded to at least width digits. */
  function ToHex(n: nat, width: nat): string
    decreases n, width
  {
    if n < 16 && width <= 1 then [HexChar(n)]
    else ToHex(n / 16, if width == 0 then 0 else width - 1) + [HexChar(n % 16)]
  }

  /** Reading back what %0Nx printed gives the number again. */
  lemma {:induction false} ToHexRoundTrip(n: nat, width: nat)
    ensures |ToHex(n, width)| >= 1
    ensures forall i :: 0 <= i < |ToHex(n, width)| ==> IsHexDigit(ToHex(n, width)[i])
    ensures HexValue(ToHex(n, width)) == n
    decreases n, width
  {
    if !(n < 16 && width <= 1) {
      var w' := if width == 0 then 0 else width - 1;
      ToHexRoundTrip(n / 16, w');
      var h := ToHex(n, width);
      assert h[..|h| - 1] == ToHex(n / 16, w');
    }
  }

  /** A number below 16^width prints as exactly width digits. */
  lemma {:induction false} ToHexLength(n: nat, width: nat)
    requires width >= 1 && n < Pow16(width)
    ensures |ToHex(n, width)| == width
    decreases width
  {
    if width > 1 {
      ToHexLength(n / 16, width - 1);
    }
  }

  /** The last two digits %0Nx prints are those of the low byte. */
  lemma {:induction false} ToHexLowByte(n: nat, width: nat)
    requires width >= 2
    ensures |ToHex(n, width)| >= 2
    ensures ToHex(n, width)[|ToHex(n, width)| - 2..] == ToHex(n % 256, 2)
  {
    var h := ToHex(n, width);
    var high := ToHex(n / 16, width - 1);
    assert h == high + [HexChar(n % 16)];
    ToHexLastDigit(n / 16, width - 1);
    ByteDigits(n);
    assert ToHex(n % 256, 2) == [HexChar((n / 16) % 16), HexChar(n % 16)];
    assert h[|h| - 2..] == [high[|high| - 1], HexChar(n % 16)];
  }

  lemma ByteDigits(n: nat)
    ensures (n % 256) / 16 == (n / 16) % 16 && (n % 256) % 16 == n % 16
  {
    var q, r := n / 256, n % 256;
    assert n == 256 * q + r;
    assert n / 16 == 16 * q + r / 16;
  }

  lemma {:induction false} ToHexLastDigit(n: nat, width: nat)
    ensures |ToHex(n, width)| >= 1
    ensures ToHex(n, width)[|ToHex(n, width)| - 1] == HexChar(n % 16)
  {
  }
}

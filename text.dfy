/**
 * Text operations the framework calls on .NET strings, on `seq<char>`:
 * `ToLower` (ASCII letters only), `char.IsWhiteSpace`,
 * `string.IsNullOrWhiteSpace`, ordinal `string.Contains`, and the UTF-8
 * encoding used for response bodies.
 */
module Text {
  import opened Common

  function LowerChar(c: char): char {
    if 'A' <= c <= 'Z' then (c as int + 32) as char else c
  }

  /** `ToLower()` restricted to ASCII letters. */
  function Lower(s: string): (r: string)
    ensures |r| == |s|
    ensures forall i :: 0 <= i < |s| ==> r[i] == LowerChar(s[i])
  {
    if s == [] then [] else [LowerChar(s[0])] + Lower(s[1..])
  }

  /** `a.ToLower() == b.ToLower()`. */
  predicate EqualsIgnoreCase(a: string, b: string) {
    Lower(a) == Lower(b)
  }

  lemma {:induction false} LowerIdempotent(s: string)
    ensures Lower(Lower(s)) == Lower(s)
  {
    if s != [] {
      LowerIdempotent(s[1..]);
      assert Lower(s)[1..] == Lower(s[1..]);
    }
  }

  /** `char.IsWhiteSpace`: the Unicode separators plus U+0009..U+000D and U+0085. */
  predicate IsWhiteSpace(c: char) {
    c == ' ' || ('\t' <= c <= '\r') || c == '\U{0085}' || c == '\U{00A0}' || c == '\U{1680}'
    || ('\U{2000}' <= c <= '\U{200A}') || c == '\U{2028}' || c == '\U{2029}' || c == '\U{202F}'
    || c == '\U{205F}' || c == '\U{3000}'
  }

  /** `string.IsNullOrWhiteSpace`: null, empty, or nothing but white space. */
  predicate IsNullOrWhiteSpace(s: Option<string>) {
    s.None? || forall i :: 0 <= i < |s.value| ==> IsWhiteSpace(s.value[i])
  }

  predicate OccursAt(s: string, keyword: string, i: nat)
    requires i + |keyword| <= |s|
  {
    s[i..i + |keyword|] == keyword
  }

  /** Ordinal `string.Contains(keyword)`. */
  predicate ContainsText(s: string, keyword: string) {
    exists i: nat | i + |keyword| <= |s| :: OccursAt(s, keyword, i)
  }

  /** Number of UTF-8 bytes of one Unicode scalar value. */
  function Utf8Width(c: char): (n: nat)
    ensures 1 <= n <= 4
    ensures n == 1 <==> (c as int) < 0x80
  {
    var v := c as int;
    if v < 0x80 then 1 else if v < 0x800 then 2 else if v < 0x10000 then 3 else 4
  }

  /** An octet of an encoded text. */
  newtype byte = b: int | 0 <= b < 0x100

  function Utf8Char(c: char): (b: seq<byte>)
    ensures |b| == Utf8Width(c)
  {
    var v := c as int;
    if v < 0x80 then [v as byte]
    else if v < 0x800 then [(0xC0 + v / 64) as byte, (0x80 + v % 64) as byte]
    else if v < 0x10000 then
      [(0xE0 + v / 4096) as byte, (0x80 + (v / 64) % 64) as byte, (0x80 + v % 64) as byte]
    else
      [(0xF0 + v / 262144) as byte, (0x80 + (v / 4096) % 64) as byte,
       (0x80 + (v / 64) % 64) as byte, (0x80 + v % 64) as byte]
  }

  /** `Encoding.UTF8.GetBytes`. */
  function Utf8Encode(s: string): seq<byte> {
    if s == [] then [] else Utf8Char(s[0]) + Utf8Encode(s[1..])
  }

  predicate IsAscii(s: string) {
    forall i :: 0 <= i < |s| ==> (s[i] as int) < 0x80
  }

  /** Every character takes one to four bytes; ASCII text takes exactly one byte per character. */
  lemma {:induction false} Utf8Length(s: string)
    ensures |s| <= |Utf8Encode(s)| <= 4 * |s|
    ensures IsAscii(s) ==> |Utf8Encode(s)| == |s|
  {
    if s != [] {
      Utf8Length(s[1..]);
      assert IsAscii(s) ==> IsAscii(s[1..]) && (s[0] as int) < 0x80;
    }
  }

  /** An ASCII string encodes to its own code units. */
  lemma {:induction false} Utf8Ascii(s: string)
    requires IsAscii(s)
    ensures |Utf8Encode(s)| == |s|
    ensures forall i :: 0 <= i < |s| ==> Utf8Encode(s)[i] as int == s[i] as int
  {
    if s != [] {
      var tail := s[1..];
      assert IsAscii(tail) by {
        forall i | 0 <= i < |tail| ensures (tail[i] as int) < 0x80 { assert tail[i] == s[i + 1]; }
      }
      Utf8Ascii(tail);
      Utf8AsciiChar(s[0]);
      var rest := Utf8Encode(tail);
      assert Utf8Encode(s) == Utf8Char(s[0]) + rest;
      forall i | 0 <= i < |s| ensures Utf8Encode(s)[i] as int == s[i] as int {
        if i > 0 { assert Utf8Encode(s)[i] == rest[i - 1]; assert tail[i - 1] == s[i]; }
      }
    }
  }

  /** An ASCII character encodes to the one byte of its own code. */
  lemma Utf8AsciiChar(c: char)
    requires (c as int) < 0x80
    ensures |Utf8Char(c)| == 1 && Utf8Char(c)[0] as int == c as int
  {
  }
}

/** UTF-8 over byte strings, as Go's unicode/utf8 reads and writes it. */
module Utf8 {

  function Byte(n: int): char
    requires 0 <= n < 256
  {
    n as char
  }

  predicate In(c: char, lo: int, hi: int) {
    lo <= c as int <= hi
  }

  predicate Continues(c: char) {
    In(c, 0x80, 0xBF)
  }

  /** The number of bytes of the well-formed rune that `s` begins with, or 0 when it begins with
      none, in which case a reader takes one byte and replaces it. */
  function RuneSize(s: string): (n: nat)
    requires s != []
    ensures n <= |s| && n <= 4
  {
    if In(s[0], 0, 0x7F) then 1
    else if In(s[0], 0xC2, 0xDF) then (if |s| >= 2 && Continues(s[1]) then 2 else 0)
    else if In(s[0], 0xE0, 0xEF) then (if |s| >= 3 && SecondOf3(s[0], s[1]) && Continues(s[2]) then 3 else 0)
    else if In(s[0], 0xF0, 0xF4) then
      (if |s| >= 4 && SecondOf4(s[0], s[1]) && Continues(s[2]) && Continues(s[3]) then 4 else 0)
    else 0
  }

  /** No overlong form and no surrogate. */
  predicate SecondOf3(first: char, second: char) {
    In(second, if first as int == 0xE0 then 0xA0 else 0x80, if first as int == 0xED then 0x9F else 0xBF)
  }

  /** No overlong form and nothing beyond U+10FFFF. */
  predicate SecondOf4(first: char, second: char) {
    In(second, if first as int == 0xF0 then 0x90 else 0x80, if first as int == 0xF4 then 0x8F else 0xBF)
  }

  /** U+FFFD. */
  const REPLACEMENT: string := [Byte(0xEF), Byte(0xBF), Byte(0xBD)]

  /** The bytes of a code point; anything that is not a scalar value becomes U+FFFD. */
  function EncodeRune(code: nat): string {
    if code < 0x80 then [Byte(code)]
    else if code < 0x800 then [Byte(0xC0 + code / 64), Byte(0x80 + code % 64)]
    else if 0xD800 <= code < 0xE000 || code > 0x10FFFF then REPLACEMENT
    else if code < 0x1_0000 then [Byte(0xE0 + code / 0x1000), Byte(0x80 + code / 64 % 64), Byte(0x80 + code % 64)]
    else [Byte(0xF0 + code / 0x4_0000), Byte(0x80 + code / 0x1000 % 64), Byte(0x80 + code / 64 % 64),
          Byte(0x80 + code % 64)]
  }

  predicate IsUtf8(s: string)
    decreases |s|
  {
    s == [] || (RuneSize(s) > 0 && IsUtf8(s[RuneSize(s)..]))
  }

  /** The string with every byte that is not part of a well-formed rune replaced. */
  function ToValid(s: string): string
    decreases |s|
  {
    if s == [] then []
    else if RuneSize(s) == 0 then REPLACEMENT + ToValid(s[1..])
    else s[..RuneSize(s)] + ToValid(s[RuneSize(s)..])
  }

  /** A rune is recognised by its own bytes alone. */
  lemma RunePrefix(s: string, t: string)
    requires s != [] && RuneSize(s) > 0
    ensures s[..RuneSize(s)] + t != [] && RuneSize(s[..RuneSize(s)] + t) == RuneSize(s)
  {
  }

  lemma StrayChanges(s: string, rest: string)
    requires s != [] && RuneSize(s) == 0
    ensures REPLACEMENT + rest != s
  {
    assert (REPLACEMENT + rest)[..3] == REPLACEMENT;
  }

  /** Replacement leaves exactly the well-formed strings as they are. */
  lemma {:induction false} ValidUnchanged(s: string)
    ensures ToValid(s) == s <==> IsUtf8(s)
    decreases |s|
  {
    if s != [] {
      var n := RuneSize(s);
      if n == 0 {
        StrayChanges(s, ToValid(s[1..]));
      } else {
        ValidUnchanged(s[n..]);
        assert s == s[..n] + s[n..];
        assert ToValid(s)[n..] == ToValid(s[n..]);
      }
    }
  }

  /** A code point that is no surrogate. */
  predicate IsScalar(code: nat) {
    code < 0xD800 || 0xE000 <= code <= 0x10FFFF
  }

  /** The value of a rune's bytes: the payload bits of its first byte, then six of each other one
      (section 3 of RFC 3629). */
  function RuneValue(s: string): int
    requires 1 <= |s| <= 4
  {
    if |s| == 1 then s[0] as int
    else if |s| == 2 then (s[0] as int - 0xC0) * 64 + (s[1] as int - 0x80)
    else if |s| == 3 then ((s[0] as int - 0xE0) * 64 + (s[1] as int - 0x80)) * 64 + (s[2] as int - 0x80)
    else (((s[0] as int - 0xF0) * 64 + (s[1] as int - 0x80)) * 64 + (s[2] as int - 0x80)) * 64 + (s[3] as int - 0x80)
  }

  /** Its last six bits make its last byte. */
  lemma Split64(code: nat)
    ensures code == code / 64 * 64 + code % 64 && 0 <= code % 64 < 64
    ensures code / 0x1000 == code / 64 / 64 && code / 0x4_0000 == code / 64 / 64 / 64
  {
  }

  lemma EncodedShort(code: nat)
    requires code < 0x800
    ensures var r := EncodeRune(code);
            && r != [] && RuneSize(r) == |r| && RuneValue(r) == code && |r| == if code < 0x80 then 1 else 2
  {
    Split64(code);
  }

  lemma EncodedThree(code: nat)
    requires IsScalar(code) && 0x800 <= code < 0x1_0000
    ensures var r := EncodeRune(code); RuneSize(r) == |r| == 3 && RuneValue(r) == code
  {
    Split64(code);
    Split64(code / 64);
  }

  lemma EncodedFour(code: nat)
    requires 0x1_0000 <= code <= 0x10FFFF
    ensures var r := EncodeRune(code); RuneSize(r) == |r| == 4 && RuneValue(r) == code
  {
    Split64(code);
    Split64(code / 64);
    Split64(code / 64 / 64);
  }

  /** A scalar value's bytes are one well-formed rune of that value, in the fewest bytes. */
  lemma EncodedRune(code: nat)
    requires IsScalar(code)
    ensures var r := EncodeRune(code);
            && r != [] && RuneSize(r) == |r| && RuneValue(r) == code
            && |r| == if code < 0x80 then 1 else if code < 0x800 then 2 else if code < 0x1_0000 then 3 else 4
  {
    if code < 0x800 {
      EncodedShort(code);
    } else if code < 0x1_0000 {
      EncodedThree(code);
    } else {
      EncodedFour(code);
    }
  }

  lemma Join64(hi: nat, lo: nat)
    requires lo < 64
    ensures (hi * 64 + lo) / 64 == hi && (hi * 64 + lo) % 64 == lo
  {
  }

  lemma DecodedShort(s: string)
    requires 1 <= |s| <= 2 && RuneSize(s) == |s|
    ensures RuneValue(s) >= 0 && IsScalar(RuneValue(s)) && EncodeRune(RuneValue(s)) == s
  {
    if |s| == 2 {
      Join64(s[0] as int - 0xC0, s[1] as int - 0x80);
    }
  }

  lemma DecodedThree(s: string)
    requires |s| == 3 && RuneSize(s) == 3
    ensures RuneValue(s) >= 0 && IsScalar(RuneValue(s)) && EncodeRune(RuneValue(s)) == s
  {
    var a, b, c := s[0] as int - 0xE0, s[1] as int - 0x80, s[2] as int - 0x80;
    Join64(a, b);
    Join64(a * 64 + b, c);
    Split64(RuneValue(s));
  }

  lemma DecodedFour(s: string)
    requires |s| == 4 && RuneSize(s) == 4
    ensures RuneValue(s) >= 0 && IsScalar(RuneValue(s)) && EncodeRune(RuneValue(s)) == s
  {
    var a, b, c, d := s[0] as int - 0xF0, s[1] as int - 0x80, s[2] as int - 0x80, s[3] as int - 0x80;
    Join64(a, b);
    Join64(a * 64 + b, c);
    Join64((a * 64 + b) * 64 + c, d);
    Split64(RuneValue(s));
  }

  /** And every well-formed rune is the bytes of its value. */
  lemma DecodedRune(s: string)
    requires s != [] && RuneSize(s) > 0
    ensures var r := s[..RuneSize(s)];
            RuneValue(r) >= 0 && IsScalar(RuneValue(r)) && EncodeRune(RuneValue(r)) == r
  {
    var r := s[..RuneSize(s)];
    RunePrefix(s, []);
    assert r + [] == r;
    if |r| <= 2 {
      DecodedShort(r);
    } else if |r| == 3 {
      DecodedThree(r);
    } else {
      DecodedFour(r);
    }
  }
}

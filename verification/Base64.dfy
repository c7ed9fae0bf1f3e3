/** Base64 without padding (RFC 4648, sections 4 and 5), as Go's RawStdEncoding and
    RawURLEncoding do it. A Go string is a sequence of bytes: chars below 256. */
module Base64 {
  import opened Schema

  ghost predicate IsBytes(s: string) {
    forall i :: 0 <= i < |s| ==> s[i] as int < 256
  }

  type ByteString = s: string | IsBytes(s)
  type Octet = v: int | 0 <= v < 256
  type Sextet = v: int | 0 <= v < 64

  /** The char of each six-bit value, and the value of each char that has one. */
  datatype Alphabet = Alphabet(digit: Sextet -> char, value: char -> Option<Sextet>)

  /** The two are each other's inverse, and neither dots nor line breaks are digits. */
  ghost predicate Sound(a: Alphabet) {
    && (forall v: Sextet :: a.value(a.digit(v)) == Some(v))
    && (forall c :: a.value(c).Some? ==> a.digit(a.value(c).value) == c && c as int < 256)
    && a.value('.').None? && a.value('\r').None? && a.value('\n').None?
  }

  function CharOf(v: Sextet, c62: char, c63: char): char {
    if v < 26 then 'A' + v as char
    else if v < 52 then 'a' + (v - 26) as char
    else if v < 62 then '0' + (v - 52) as char
    else if v == 62 then c62
    else c63
  }

  function ValueOf(c: char, c62: char, c63: char): Option<Sextet> {
    if 'A' <= c <= 'Z' then Some(c as int - 'A' as int)
    else if 'a' <= c <= 'z' then Some(c as int - 'a' as int + 26)
    else if '0' <= c <= '9' then Some(c as int - '0' as int + 52)
    else if c == c62 then Some(62)
    else if c == c63 then Some(63)
    else None
  }

  const RAW_STD := Alphabet((v: Sextet) => CharOf(v, '+', '/'), c => ValueOf(c, '+', '/'))
  const RAW_URL := Alphabet((v: Sextet) => CharOf(v, '-', '_'), c => ValueOf(c, '-', '_'))

  lemma StdSound()
    ensures Sound(RAW_STD)
  {
    forall v: Sextet
      ensures RAW_STD.value(RAW_STD.digit(v)) == Some(v)
    {
    }
    forall c | RAW_STD.value(c).Some?
      ensures RAW_STD.digit(RAW_STD.value(c).value) == c && c as int < 256
    {
    }
  }

  lemma UrlSound()
    ensures Sound(RAW_URL)
  {
    forall v: Sextet
      ensures RAW_URL.value(RAW_URL.digit(v)) == Some(v)
    {
    }
    forall c | RAW_URL.value(c).Some?
      ensures RAW_URL.digit(RAW_URL.value(c).value) == c && c as int < 256
    {
    }
  }

  /** Three bytes, or four six-bit digits, of the same 24 bits. */
  datatype Octets = Octets(a: Octet, b: Octet, c: Octet)
  datatype Sextets = Sextets(p: Sextet, q: Sextet, r: Sextet, t: Sextet)

  function ToSextets(o: Octets): (x: Sextets) {
    Sextets(o.a / 4, o.a % 4 * 16 + o.b / 16, o.b % 16 * 4 + o.c / 64, o.c % 64)
  }

  function ToOctets(x: Sextets): (o: Octets) {
    Octets(x.p * 4 + x.q / 16, x.q % 16 * 16 + x.r / 4, x.r % 4 * 64 + x.t)
  }

  lemma By4(hi: int, lo: int)
    requires 0 <= lo < 4
    ensures (hi * 4 + lo) / 4 == hi && (hi * 4 + lo) % 4 == lo
  {
  }

  lemma By16(hi: int, lo: int)
    requires 0 <= lo < 16
    ensures (hi * 16 + lo) / 16 == hi && (hi * 16 + lo) % 16 == lo
  {
  }

  lemma By64(hi: int, lo: int)
    requires 0 <= lo < 64
    ensures (hi * 64 + lo) / 64 == hi && (hi * 64 + lo) % 64 == lo
  {
  }

  lemma OctetsAgain(o: Octets)
    ensures ToOctets(ToSextets(o)) == o
  {
    By16(o.a % 4, o.b / 16);
    By4(o.b % 16, o.c / 64);
  }

  lemma SextetsAgain(x: Sextets)
    ensures ToSextets(ToOctets(x)) == x
  {
    By4(x.p, x.q / 16);
    By16(x.q % 16, x.r / 4);
    By64(x.r % 4, x.t);
  }

  /** The first three bytes; a byte that is missing counts as zero. */
  function Group(s: string): (o: Octets)
    requires IsBytes(s) && s != []
  {
    Octets(s[0] as int, if |s| > 1 then s[1] as int else 0, if |s| > 2 then s[2] as int else 0)
  }

  function Digits(x: Sextets, a: Alphabet): string {
    [a.digit(x.p), a.digit(x.q), a.digit(x.r), a.digit(x.t)]
  }

  function Encode(s: string, a: Alphabet): string
    requires IsBytes(s)
  {
    if s == [] then []
    else if |s| < 3 then Digits(ToSextets(Group(s)), a)[..|s| + 1]
    else Digits(ToSextets(Group(s)), a) + Encode(s[3..], a)
  }

  function Bytes(o: Octets): (s: string)
    ensures |s| == 3 && IsBytes(s)
  {
    [o.a as char, o.b as char, o.c as char]
  }

  /** The values of two to four digits; a digit that is missing counts as zero. */
  function Values(s: string, a: Alphabet): (x: Option<Sextets>)
    requires 2 <= |s|
  {
    var p, q := a.value(s[0]), a.value(s[1]);
    var r := if |s| > 2 then a.value(s[2]) else Some(0);
    var t := if |s| > 3 then a.value(s[3]) else Some(0);
    if p.None? || q.None? || r.None? || t.None? then None else Some(Sextets(p.value, q.value, r.value, t.value))
  }

  /** The decoder skips line breaks wherever they stand. */
  function Strip(s: string): string {
    if s == [] then []
    else (if s[0] == '\r' || s[0] == '\n' then [] else [s[0]]) + Strip(s[1..])
  }

  function DecodeDigits(s: string, a: Alphabet): Option<string> {
    if s == [] then Some([])
    else if |s| == 1 then None
    else
      match Values(s, a)
      case None => None
      case Some(x) =>
        if |s| <= 4 then Some(Bytes(ToOctets(x))[..|s| - 1])
        else
          match DecodeDigits(s[4..], a)
          case None => None
          case Some(rest) => Some(Bytes(ToOctets(x)) + rest)
  }

  /** Bits of the last digit beyond the last whole byte are ignored, whatever they are. */
  function Decode(s: string, a: Alphabet): Option<string> {
    DecodeDigits(Strip(s), a)
  }

  lemma ValuesOfDigits(x: Sextets, a: Alphabet, rest: string)
    requires Sound(a)
    ensures Values(Digits(x, a) + rest, a) == Some(x)
  {
  }

  lemma ValuesOfSome(x: Sextets, a: Alphabet, k: nat)
    requires Sound(a)
    requires 2 <= k <= 3
    ensures Values(Digits(x, a)[..k], a) == Some(x.(r := if k == 2 then 0 else x.r, t := 0))
  {
  }

  lemma ZeroTail(o: Octets)
    ensures o.c == 0 ==> ToSextets(o).t == 0
    ensures o.b == 0 && o.c == 0 ==> ToSextets(o).r == 0
  {
  }

  /** `x` stands for the group's sextets. */
  lemma ShortDecodes(s: string, x: Sextets, a: Alphabet)
    requires Sound(a)
    requires IsBytes(s) && 1 <= |s| <= 2 && ToOctets(x) == Group(s)
    requires x.t == 0 && (|s| == 1 ==> x.r == 0)
    ensures DecodeDigits(Digits(x, a)[..|s| + 1], a) == Some(s)
  {
    ValuesOfSome(x, a, |s| + 1);
    assert Bytes(Group(s))[..|s|] == s;
  }

  lemma GroupDecodes(s: string, x: Sextets, a: Alphabet, rest: string)
    requires Sound(a)
    requires IsBytes(s) && |s| >= 3 && ToOctets(x) == Group(s)
    requires DecodeDigits(rest, a) == Some(s[3..]) && (rest == [] <==> |s| == 3)
    ensures DecodeDigits(Digits(x, a) + rest, a) == Some(s)
  {
    var t := Digits(x, a) + rest;
    ValuesOfDigits(x, a, rest);
    assert Bytes(Group(s)) == s[..3];
    assert s == s[..3] + s[3..];
    if rest == [] {
      assert |t| == 4 && s[..3] == s;
    } else {
      assert |t| > 4 && t[4..] == rest;
    }
  }

  lemma {:induction false} DigitsRoundTrip(s: string, a: Alphabet)
    requires Sound(a)
    requires IsBytes(s)
    ensures DecodeDigits(Encode(s, a), a) == Some(s)
    decreases |s|
  {
    if 1 <= |s| < 3 {
      OctetsAgain(Group(s));
      ZeroTail(Group(s));
      ShortDecodes(s, ToSextets(Group(s)), a);
    } else if s != [] {
      OctetsAgain(Group(s));
      DigitsRoundTrip(s[3..], a);
      GroupDecodes(s, ToSextets(Group(s)), a, Encode(s[3..], a));
    }
  }

  lemma DigitsAlphabet(x: Sextets, a: Alphabet)
    requires Sound(a)
    ensures forall i :: 0 <= i < 4 ==> a.value(Digits(x, a)[i]).Some?
  {
  }

  /** Every char of an encoding is one of the 64, so neither a dot nor a line break. */
  lemma {:induction false} EncodingAlphabet(s: string, a: Alphabet)
    requires Sound(a)
    requires IsBytes(s)
    ensures forall i :: 0 <= i < |Encode(s, a)| ==> a.value(Encode(s, a)[i]).Some?
    decreases |s|
  {
    if s != [] {
      DigitsAlphabet(ToSextets(Group(s)), a);
      if |s| >= 3 {
        EncodingAlphabet(s[3..], a);
      }
    }
  }

  lemma {:induction false} StripNothing(s: string)
    requires '\r' !in s && '\n' !in s
    ensures Strip(s) == s
    decreases |s|
  {
    if s != [] {
      StripNothing(s[1..]);
    }
  }

  lemma EncodingPlain(s: string, a: Alphabet)
    requires Sound(a)
    requires IsBytes(s)
    ensures '.' !in Encode(s, a) && '\r' !in Encode(s, a) && '\n' !in Encode(s, a)
    ensures IsBytes(Encode(s, a))
  {
  }

  /** What is encoded decodes to itself, for all bytes. */
  lemma RoundTrip(s: string, a: Alphabet)
    requires Sound(a)
    requires IsBytes(s)
    ensures Decode(Encode(s, a), a) == Some(s)
  {
    EncodingPlain(s, a);
    StripNothing(Encode(s, a));
    DigitsRoundTrip(s, a);
  }

  /** The last digit carries no bits beyond the last whole byte. */
  predicate Canonical(s: string, a: Alphabet)
    decreases |s|
  {
    if |s| > 4 then Canonical(s[4..], a)
    else if |s| < 2 || Values(s, a).None? then true
    else if |s| == 2 then Values(s, a).value.q % 16 == 0
    else if |s| == 3 then Values(s, a).value.r % 4 == 0
    else true
  }

  lemma DigitsOfValues(s: string, a: Alphabet)
    requires Sound(a)
    requires 2 <= |s| && Values(s, a).Some?
    ensures var d := Digits(Values(s, a).value, a);
            d[0] == s[0] && d[1] == s[1] && (|s| > 2 ==> d[2] == s[2]) && (|s| > 3 ==> d[3] == s[3])
  {
  }

  /** The sextets that the first byte of `x` encodes to. */
  lemma FirstOctet(x: Sextets)
    ensures ToSextets(Octets(ToOctets(x).a, 0, 0)) == Sextets(x.p, x.q - x.q % 16, 0, 0)
  {
  }

  /** And its first two. */
  lemma FirstOctets(x: Sextets)
    ensures ToSextets(Octets(ToOctets(x).a, ToOctets(x).b, 0)) == Sextets(x.p, x.q, x.r - x.r % 4, 0)
  {
    By4(x.p, x.q / 16);
    By16(x.q % 16, x.r / 4);
  }

  lemma SameDigits(s: string, a: Alphabet, y: Sextets)
    requires Sound(a)
    requires 2 <= |s| <= 3 && Values(s, a).Some? && y.p == Values(s, a).value.p && y.t == 0
    requires |s| == 2 ==> y.r == 0
    requires |s| == 3 ==> y.q == Values(s, a).value.q
    ensures Digits(y, a)[..|s|] == s <==> y == Values(s, a).value
  {
  }

  /** The digits of the whole bytes of a short last group. */
  lemma ShortGroup(s: string, a: Alphabet)
    requires Sound(a)
    requires 2 <= |s| <= 3 && Values(s, a).Some?
    ensures var o := ToOctets(Values(s, a).value);
            Encode(Bytes(o)[..|s| - 1], a) == s <==> Canonical(s, a)
  {
    var x := Values(s, a).value;
    var o := ToOctets(x);
    if |s| == 2 {
      FirstOctet(x);
      assert Group(Bytes(o)[..1]) == Octets(o.a, 0, 0);
      SameDigits(s, a, Sextets(x.p, x.q - x.q % 16, 0, 0));
    } else {
      FirstOctets(x);
      assert Group(Bytes(o)[..2]) == Octets(o.a, o.b, 0);
      SameDigits(s, a, Sextets(x.p, x.q, x.r - x.r % 4, 0));
    }
  }

  lemma LongGroup(s: string, a: Alphabet, rest: string)
    requires Sound(a)
    requires 4 <= |s| && Values(s, a).Some? && IsBytes(rest)
    ensures IsBytes(Bytes(ToOctets(Values(s, a).value)) + rest)
    ensures Encode(Bytes(ToOctets(Values(s, a).value)) + rest, a) == s[..4] + Encode(rest, a)
  {
    var x := Values(s, a).value;
    SextetsAgain(x);
    DigitsOfValues(s, a);
    var b := Bytes(ToOctets(x));
    assert (b + rest)[3..] == rest && Group(b + rest) == ToOctets(x);
  }

  /** The other way: encoding what was decoded gives the text back, line breaks apart, exactly
      when its last digit is canonical. */
  lemma {:induction false} DecodedEncodes(s: string, a: Alphabet)
    requires Sound(a)
    requires DecodeDigits(s, a).Some?
    ensures IsBytes(DecodeDigits(s, a).value)
    ensures Encode(DecodeDigits(s, a).value, a) == s <==> Canonical(s, a)
    decreases |s|
  {
    if s != [] {
      var b := Bytes(ToOctets(Values(s, a).value));
      if |s| < 4 {
        ShortGroup(s, a);
      } else {
        var rest := if |s| == 4 then [] else DecodeDigits(s[4..], a).value;
        if |s| > 4 {
          DecodedEncodes(s[4..], a);
        }
        LongGroup(s, a, rest);
        assert s == s[..4] + s[4..];
        assert |s| == 4 ==> b[..3] == b + rest;
      }
    }
  }

  /** The digits of the standard's two alphabets. */
  lemma DigitsOf(v: Sextet)
    ensures RAW_STD.digit(v) ==
            if v < 26 then 'A' + v as char
            else if v < 52 then 'a' + (v - 26) as char
            else if v < 62 then '0' + (v - 52) as char
            else if v == 62 then '+'
            else '/'
    ensures RAW_URL.digit(v) == if v < 62 then RAW_STD.digit(v) else if v == 62 then '-' else '_'
  {
  }

  /** The number that some digits spell in base 64, or some bytes in base 256, the highest first. */
  function DigitNumber(s: string, a: Alphabet): int {
    if s == [] then 0
    else DigitNumber(s[..|s| - 1], a) * 64 + if a.value(s[|s| - 1]).Some? then a.value(s[|s| - 1]).value else 0
  }

  function ByteNumber(s: string): int {
    if s == [] then 0 else ByteNumber(s[..|s| - 1]) * 256 + s[|s| - 1] as int
  }

  /** Four digits spell the number of three bytes; two or three, that of the last one or two bytes
      with four or two zero bits after it. */
  predicate Spells(text: string, s: string, a: Alphabet)
    decreases |s|
  {
    if s == [] then text == []
    else if |s| == 1 then |text| == 2 && DigitNumber(text, a) == ByteNumber(s) * 16
    else if |s| == 2 then |text| == 3 && DigitNumber(text, a) == ByteNumber(s) * 4
    else |text| >= 4 && DigitNumber(text[..4], a) == ByteNumber(s[..3]) && Spells(text[4..], s[3..], a)
  }

  lemma GroupNumber(o: Octets)
    ensures var x := ToSextets(o);
            ((x.p * 64 + x.q) * 64 + x.r) * 64 + x.t == (o.a * 256 + o.b) * 256 + o.c
  {
  }

  lemma NumberOfDigits(x: Sextets, a: Alphabet)
    requires Sound(a)
    ensures var d := Digits(x, a);
            && DigitNumber(d[..2], a) == x.p * 64 + x.q
            && DigitNumber(d[..3], a) == (x.p * 64 + x.q) * 64 + x.r
            && DigitNumber(d, a) == ((x.p * 64 + x.q) * 64 + x.r) * 64 + x.t
  {
    var d := Digits(x, a);
    assert d[..1][..0] == [] && DigitNumber([], a) == 0;
    assert d[..2][..1] == d[..1] && d[..3][..2] == d[..2] && d[..3] == d[..|d| - 1];
    assert DigitNumber(d[..1], a) == x.p;
  }

  lemma NumberOfBytes(s: string)
    ensures |s| >= 1 ==> ByteNumber(s[..1]) == s[0] as int
    ensures |s| >= 2 ==> ByteNumber(s[..2]) == s[0] as int * 256 + s[1] as int
    ensures |s| >= 3 ==> ByteNumber(s[..3]) == (s[0] as int * 256 + s[1] as int) * 256 + s[2] as int
  {
    if |s| >= 1 {
      assert s[..1][..0] == [] && ByteNumber([]) == 0;
    }
    if |s| >= 2 {
      assert s[..2][..1] == s[..1];
    }
    if |s| >= 3 {
      assert s[..3][..2] == s[..2];
    }
  }

  /** An encoding spells its bytes, from the first on. */
  lemma {:induction false} EncodingSpells(s: string, a: Alphabet)
    requires Sound(a) && IsBytes(s)
    ensures Spells(Encode(s, a), s, a)
    decreases |s|
  {
    if s != [] {
      var x := ToSextets(Group(s));
      GroupNumber(Group(s));
      NumberOfDigits(x, a);
      NumberOfBytes(s);
      ZeroTail(Group(s));
      if |s| < 3 {
        assert s[..|s|] == s;
      } else {
        EncodingSpells(s[3..], a);
        assert Encode(s, a)[..4] == Digits(x, a) && Encode(s, a)[4..] == Encode(s[3..], a);
      }
    }
  }
}

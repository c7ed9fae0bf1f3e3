/** The JSON of a token's claims: encoding/json's string escaping and integers, its reader of JSON
    texts, and the decoding of a text into the fields of the claims. */
module Json {
  import opened Schema
  import opened Utf8
  import opened Base64
  import Decimal

  function HexDigit(v: int): char
    requires 0 <= v < 16
  {
    if v < 10 then '0' + v as char else 'a' + (v - 10) as char
  }

  function HexValue(c: char): (v: Option<nat>)
    ensures v.Some? ==> v.value < 16
  {
    if '0' <= c <= '9' then Some(c as int - '0' as int)
    else if 'a' <= c <= 'f' then Some(c as int - 'a' as int + 10)
    else if 'A' <= c <= 'F' then Some(c as int - 'A' as int + 10)
    else None
  }

  /** An ASCII char inside a string literal, HTML's special chars escaped too. */
  function EscapeAscii(c: char): string
    requires c as int < 0x80
  {
    if c == '"' || c == '\\' then ['\\', c]
    else if c as int == 8 then "\\b"
    else if c as int == 12 then "\\f"
    else if c == '\n' then "\\n"
    else if c == '\r' then "\\r"
    else if c == '\t' then "\\t"
    else if c < ' ' || c == '<' || c == '>' || c == '&' then
      ['\\', 'u', '0', '0', HexDigit(c as int / 16), HexDigit(c as int % 16)]
    else [c]
  }

  /** U+2028 or U+2029. */
  predicate IsLineSeparator(s: string) {
    |s| == 3 && s[0] == Byte(0xE2) && s[1] == Byte(0x80) && (s[2] == Byte(0xA8) || s[2] == Byte(0xA9))
  }

  /** A rune of more than one byte inside a string literal. */
  function EscapeRune(s: string): string {
    if IsLineSeparator(s) then (if s[2] == Byte(0xA8) then "\\u2028" else "\\u2029") else s
  }

  /** The inside of a string literal. */
  function Quote(s: string): string
    decreases |s|
  {
    if s == [] then []
    else if s[0] as int < 0x80 then EscapeAscii(s[0]) + Quote(s[1..])
    else if RuneSize(s) == 0 then "\\ufffd" + Quote(s[1..])
    else EscapeRune(s[..RuneSize(s)]) + Quote(s[RuneSize(s)..])
  }

  /** The four hex digits of a \u escape at the start of `s`. */
  function Hex4(s: string): (code: Option<nat>) {
    if |s| < 4 then None
    else
      match (HexValue(s[0]), HexValue(s[1]), HexValue(s[2]), HexValue(s[3]))
      case (Some(a), Some(b), Some(c), Some(d)) => Some(a * 0x1000 + b * 0x100 + c * 16 + d)
      case _ => None
  }

  datatype Unquoted = Unquoted(text: string, rest: string)

  function Prepend(text: string, u: Option<Unquoted>): Option<Unquoted> {
    match u
    case None => None
    case Some(v) => Some(Unquoted(text + v.text, v.rest))
  }

  /** What a one-char escape stands for. */
  function Unescape(c: char): Option<char> {
    if c == '"' || c == '\\' || c == '/' then Some(c)
    else if c == 'b' then Some(8 as char)
    else if c == 'f' then Some(12 as char)
    else if c == 'n' then Some('\n')
    else if c == 'r' then Some('\r')
    else if c == 't' then Some('\t')
    else None
  }

  /** A high surrogate followed by the escape of a low one. */
  function Paired(code: nat, s: string): Option<nat> {
    if 0xD800 <= code < 0xDC00 && |s| >= 6 && s[0] == '\\' && s[1] == 'u' && Hex4(s[2..]).Some? &&
       0xDC00 <= Hex4(s[2..]).value < 0xE000 then
      Some(0x1_0000 + (code - 0xD800) * 0x400 + (Hex4(s[2..]).value - 0xDC00))
    else None
  }

  /** Reads a string literal from after its opening quote to after its closing one. */
  function Unquote(s: string): (u: Option<Unquoted>)
    ensures u.Some? ==> |u.value.rest| < |s|
    decreases |s|
  {
    if s == [] then None
    else if s[0] == '"' then Some(Unquoted([], s[1..]))
    else if s[0] == '\\' then
      if |s| < 2 then None
      else if s[1] == 'u' then
        match Hex4(s[2..])
        case None => None
        case Some(code) =>
          if Paired(code, s[6..]).Some? then Prepend(EncodeRune(Paired(code, s[6..]).value), Unquote(s[12..]))
          else Prepend(EncodeRune(code), Unquote(s[6..]))
      else
        match Unescape(s[1])
        case None => None
        case Some(c) => Prepend([c], Unquote(s[2..]))
    else if s[0] < ' ' then None
    else if RuneSize(s) == 0 then Prepend(REPLACEMENT, Unquote(s[1..]))
    else Prepend(s[..RuneSize(s)], Unquote(s[RuneSize(s)..]))
  }

  lemma HexAgain(v: int)
    requires 0 <= v < 16
    ensures HexValue(HexDigit(v)) == Some(v)
  {
  }

  lemma UnquoteHex(a: char, b: char, c: char, d: char, code: nat, t: string)
    requires Hex4([a, b, c, d]) == Some(code) && !(0xD800 <= code < 0xE000)
    ensures Unquote(['\\', 'u', a, b, c, d] + t) == Prepend(EncodeRune(code), Unquote(t))
  {
  }

  lemma UnquotesAscii(c: char, t: string)
    requires c as int < 0x80
    ensures Unquote(EscapeAscii(c) + t) == Prepend([c], Unquote(t))
  {
    var p := EscapeAscii(c);
    if |p| == 6 {
      HexAgain(c as int / 16);
      HexAgain(c as int % 16);
      UnquoteHex('0', '0', p[4], p[5], c as int, t);
    } else if |p| == 2 {
      assert (p + t)[2..] == t;
    } else {
      assert RuneSize(p + t) == 1 && (p + t)[..1] == [c] && (p + t)[1..] == t;
    }
  }

  lemma UnquotesRune(s: string, t: string)
    requires s != [] && s[0] as int >= 0x80 && RuneSize(s) > 0
    ensures Unquote(EscapeRune(s[..RuneSize(s)]) + t) == Prepend(s[..RuneSize(s)], Unquote(t))
  {
    var n := RuneSize(s);
    var r := s[..n];
    if IsLineSeparator(r) {
      assert EncodeRune(0x2028) == [Byte(0xE2), Byte(0x80), Byte(0xA8)];
      assert EncodeRune(0x2029) == [Byte(0xE2), Byte(0x80), Byte(0xA9)];
      var last, code := if r[2] == Byte(0xA8) then '8' else '9', if r[2] == Byte(0xA8) then 0x2028 else 0x2029;
      UnquoteHex('2', '0', '2', last, code, t);
      assert r == EncodeRune(if r[2] == Byte(0xA8) then 0x2028 else 0x2029);
      assert EscapeRune(r) == ['\\', 'u', '2', '0', '2', if r[2] == Byte(0xA8) then '8' else '9'];
    } else {
      RunePrefix(s, t);
      assert (r + t)[..n] == r && (r + t)[n..] == t;
    }
  }

  /** The size of the first rune, or of the first byte when it is part of none. */
  function UnitSize(s: string): (n: nat)
    requires s != []
    ensures 1 <= n <= |s|
  {
    if RuneSize(s) == 0 then 1 else RuneSize(s)
  }

  /** That much of `s` is written as `p` and read back as `v`. */
  lemma FirstUnit(s: string, t: string) returns (p: string, v: string, n: nat)
    requires s != []
    ensures n == UnitSize(s)
    ensures Quote(s) == p + Quote(s[n..]) && ToValid(s) == v + ToValid(s[n..])
    ensures Unquote(p + t) == Prepend(v, Unquote(t))
  {
    if s[0] as int < 0x80 {
      p, v, n := EscapeAscii(s[0]), [s[0]], 1;
      UnquotesAscii(s[0], t);
      assert s[..1] == v;
    } else if RuneSize(s) == 0 {
      p, v, n := "\\ufffd", REPLACEMENT, 1;
      assert EncodeRune(0xFFFD) == REPLACEMENT && p == ['\\', 'u', 'f', 'f', 'f', 'd'];
      UnquoteHex('f', 'f', 'f', 'd', 0xFFFD, t);
    } else {
      n := RuneSize(s);
      p, v := EscapeRune(s[..n]), s[..n];
      UnquotesRune(s, t);
    }
  }

  lemma Regroup(a: string, b: string, c: string, d: string)
    ensures a + b + c + d == a + (b + c + d)
  {
  }

  /** What is written as a string literal is read back, byte for byte where it is UTF-8 and with
      every other byte replaced. */
  lemma {:induction false} StringRoundTrip(s: string, rest: string)
    ensures Unquote(Quote(s) + "\"" + rest) == Some(Unquoted(ToValid(s), rest))
    decreases |s|
  {
    if s == [] {
      assert Quote(s) + "\"" + rest == ['"'] + rest;
    } else {
      var size := UnitSize(s);
      var p, v, n := FirstUnit(s, Quote(s[size..]) + "\"" + rest);
      assert n == size;
      StringRoundTrip(s[n..], rest);
      Regroup(p, Quote(s[n..]), "\"", rest);
    }
  }

  predicate IsDigit(c: char) {
    '0' <= c <= '9'
  }

  /** The length of the run of digits that `s` begins with. */
  function DigitRun(s: string): (n: nat)
    ensures n <= |s| && (forall i :: 0 <= i < n ==> IsDigit(s[i]))
  {
    if s == [] || !IsDigit(s[0]) then 0 else 1 + DigitRun(s[1..])
  }

  function DigitsValue(s: string): nat
    requires forall i :: 0 <= i < |s| ==> IsDigit(s[i])
  {
    if s == [] then 0
    else
      assert IsDigit(s[|s| - 1]);
      DigitsValue(s[..|s| - 1]) * 10 + (s[|s| - 1] as int - '0' as int)
  }

  datatype Number = Number(value: int, rest: string)

  /** An integer: a minus sign or none, then digits without a leading zero. */
  function ReadInt(s: string): (r: Option<Number>)
    ensures r.Some? ==> |r.value.rest| < |s|
  {
    var negative := s != [] && s[0] == '-';
    var t := if negative then s[1..] else s;
    var n := DigitRun(t);
    if n == 0 || (n > 1 && t[0] == '0') then None
    else Some(Number(if negative then 0 - DigitsValue(t[..n]) else DigitsValue(t[..n]), t[n..]))
  }

  lemma {:induction false} PrintedNat(n: nat)
    ensures var d := Decimal.PrintNat(n);
            && d != [] && (forall i :: 0 <= i < |d| ==> IsDigit(d[i]))
            && DigitsValue(d) == n
            && (|d| > 1 ==> d[0] != '0') && (n > 0 ==> d[0] != '0')
  {
    if n >= 10 {
      PrintedNat(n / 10);
      var d := Decimal.PrintNat(n);
      assert d[..|d| - 1] == Decimal.PrintNat(n / 10);
    } else {
      assert Decimal.PrintNat(n)[..0] == [];
    }
  }

  lemma {:induction false} RunOfDigits(d: string, rest: string)
    requires forall i :: 0 <= i < |d| ==> IsDigit(d[i])
    requires rest == [] || !IsDigit(rest[0])
    ensures DigitRun(d + rest) == |d|
    decreases |d|
  {
    if d == [] {
      assert d + rest == rest;
    } else {
      RunOfDigits(d[1..], rest);
      assert (d + rest)[1..] == d[1..] + rest;
    }
  }

  lemma ReadsDigits(d: string, rest: string)
    requires d != [] && forall i :: 0 <= i < |d| ==> IsDigit(d[i])
    requires rest == [] || !IsDigit(rest[0])
    ensures (d + rest)[0] == d[0] && DigitRun(d + rest) == |d| && (d + rest)[..|d|] == d && (d + rest)[|d|..] == rest
  {
    RunOfDigits(d, rest);
  }

  /** What is printed in decimal is read back, whatever follows that is no digit. */
  lemma IntRoundTrip(n: int, rest: string)
    requires rest == [] || !IsDigit(rest[0])
    ensures ReadInt(Decimal.Print(n) + rest) == Some(Number(n, rest))
  {
    var m: nat := if n < 0 then -n else n;
    PrintedNat(m);
    ReadsDigits(Decimal.PrintNat(m), rest);
    if n < 0 {
      assert (Decimal.Print(n) + rest)[1..] == Decimal.PrintNat(m) + rest;
    }
  }

  /** The payload fields the middleware decodes. */
  datatype Claims = Claims(sub: int, role: string, vendorId: int)

  /** Fraction stands for every number with a fraction or an exponent. */
  datatype Value =
    | Null
    | Bool(value: bool)
    | Int(number: int)
    | Fraction
    | Text(text: string)
    | Array(items: seq<Value>)
    | Object(members: seq<Member>)

  datatype Member = Member(key: string, value: Value)

  datatype Read<T> = Read(value: T, rest: string)

  predicate IsSpace(c: char) {
    c == ' ' || c == '\t' || c == '\r' || c == '\n'
  }

  /** `s` without the white space that it begins with. */
  function Skip(s: string): (t: string)
    ensures |t| <= |s| && (t == [] || !IsSpace(t[0]))
  {
    if s != [] && IsSpace(s[0]) then Skip(s[1..]) else s
  }

  /** What follows `word`, where `s` begins with it. */
  function After(word: string, s: string): Option<string> {
    if word <= s then Some(s[|word|..]) else None
  }

  /** After the fraction: the text itself when it begins with no point. */
  function SkipFraction(s: string): (t: Option<string>)
    ensures t.Some? ==> |t.value| <= |s|
  {
    if s == [] || s[0] != '.' then Some(s)
    else if DigitRun(s[1..]) == 0 then None
    else Some(s[1..][DigitRun(s[1..])..])
  }

  /** After the exponent, if there is one. */
  function SkipExponent(s: string): (t: Option<string>)
    ensures t.Some? ==> |t.value| <= |s|
  {
    if s == [] || (s[0] != 'e' && s[0] != 'E') then Some(s)
    else
      var u := if |s| > 1 && (s[1] == '+' || s[1] == '-') then s[2..] else s[1..];
      if DigitRun(u) == 0 then None else Some(u[DigitRun(u)..])
  }

  function ReadNumber(s: string): (r: Option<Read<Value>>)
    ensures r.Some? ==> |r.value.rest| < |s|
  {
    match ReadInt(s)
    case None => None
    case Some(n) =>
      match SkipFraction(n.rest)
      case None => None
      case Some(t) =>
        match SkipExponent(t)
        case None => None
        case Some(rest) => Some(Read(if rest == n.rest then Int(n.value) else Fraction, rest))
  }

  /** A string literal, from after its opening quote. */
  function ReadText(s: string): (r: Option<Read<Value>>)
    ensures r.Some? ==> |r.value.rest| < |s|
  {
    match Unquote(s)
    case None => None
    case Some(u) => Some(Read(Text(u.text), u.rest))
  }

  /** A literal name or a number. */
  function ReadScalar(s: string): (r: Option<Read<Value>>)
    ensures r.Some? ==> |r.value.rest| < |s|
  {
    if After("true", s).Some? then Some(Read(Bool(true), After("true", s).value))
    else if After("false", s).Some? then Some(Read(Bool(false), After("false", s).value))
    else if After("null", s).Some? then Some(Read(Null, After("null", s).value))
    else ReadNumber(s)
  }

  /** One value at the start of `s`, in which arrays and objects nest at most `room` deep. */
  function ReadValue(s: string, room: nat): (r: Option<Read<Value>>)
    ensures r.Some? ==> |r.value.rest| < |s|
    decreases |s|, 0
  {
    if s == [] then None
    else if s[0] == '"' then ReadText(s[1..])
    else if s[0] == '{' then (if room == 0 then None else ReadObject(Skip(s[1..]), room - 1))
    else if s[0] == '[' then (if room == 0 then None else ReadArray(Skip(s[1..]), room - 1))
    else ReadScalar(s)
  }

  /** An object, from the first thing in it. */
  function ReadObject(s: string, room: nat): (r: Option<Read<Value>>)
    ensures r.Some? ==> |r.value.rest| < |s|
    decreases |s|, 3
  {
    if s != [] && s[0] == '}' then Some(Read(Object([]), s[1..]))
    else
      match ReadMembers(s, room)
      case None => None
      case Some(r) => Some(Read(Object(r.value), r.rest))
  }

  function ReadArray(s: string, room: nat): (r: Option<Read<Value>>)
    ensures r.Some? ==> |r.value.rest| < |s|
    decreases |s|, 3
  {
    if s != [] && s[0] == ']' then Some(Read(Array([]), s[1..]))
    else
      match ReadItems(s, room)
      case None => None
      case Some(r) => Some(Read(Array(r.value), r.rest))
  }

  /** A member's key and colon. */
  function ReadKey(s: string): (r: Option<Read<string>>)
    ensures r.Some? ==> |r.value.rest| < |s|
  {
    if s == [] || s[0] != '"' then None
    else
      match Unquote(s[1..])
      case None => None
      case Some(key) =>
        var t := Skip(key.rest);
        if t == [] || t[0] != ':' then None else Some(Read(key.text, Skip(t[1..])))
  }

  function ReadMember(s: string, room: nat): (r: Option<Read<Member>>)
    ensures r.Some? ==> |r.value.rest| < |s|
    decreases |s|, 1
  {
    match ReadKey(s)
    case None => None
    case Some(key) =>
      match ReadValue(key.rest, room)
      case None => None
      case Some(v) => Some(Read(Member(key.value, v.value), v.rest))
  }

  /** The members of an object, to after its closing brace. */
  function ReadMembers(s: string, room: nat): (r: Option<Read<seq<Member>>>)
    ensures r.Some? ==> |r.value.rest| < |s|
    decreases |s|, 2
  {
    match ReadMember(s, room)
    case None => None
    case Some(m) =>
      var t := Skip(m.rest);
      if t == [] then None
      else if t[0] == '}' then Some(Read([m.value], t[1..]))
      else if t[0] != ',' then None
      else
        match ReadMembers(Skip(t[1..]), room)
        case None => None
        case Some(r) => Some(Read([m.value] + r.value, r.rest))
  }

  /** The items of an array, to after its closing bracket. */
  function ReadItems(s: string, room: nat): (r: Option<Read<seq<Value>>>)
    ensures r.Some? ==> |r.value.rest| < |s|
    decreases |s|, 1
  {
    match ReadValue(s, room)
    case None => None
    case Some(v) =>
      var t := Skip(v.rest);
      if t == [] then None
      else if t[0] == ']' then Some(Read([v.value], t[1..]))
      else if t[0] != ',' then None
      else
        match ReadItems(Skip(t[1..]), room)
        case None => None
        case Some(r) => Some(Read([v.value] + r.value, r.rest))
  }

  const MAX_DEPTH := 10000

  /** A whole text: one value with white space around it. */
  function Parse(s: string): Option<Value> {
    match ReadValue(Skip(s), MAX_DEPTH)
    case None => None
    case Some(r) => if Skip(r.rest) == [] then Some(r.value) else None
  }

  /** Upper case for the letters that fold into ASCII, of which two lie outside it: U+017F is an
      S, U+212A a K. */
  function Folded(s: string): string
    decreases |s|
  {
    if s == [] then []
    else if 'a' <= s[0] <= 'z' then [s[0] - 'a' + 'A'] + Folded(s[1..])
    else if [Byte(0xC5), Byte(0xBF)] <= s then ['S'] + Folded(s[2..])
    else if [Byte(0xE2), Byte(0x84), Byte(0xAA)] <= s then ['K'] + Folded(s[3..])
    else [s[0]] + Folded(s[1..])
  }

  function StoreInt(v: Value, stored: int): Option<int> {
    if v.Null? then Some(stored) else if v.Int? && IsInt64(v.number) then Some(v.number) else None
  }

  /** Stores one member in the field that its key names, in whatever case; null leaves the field as
      it is, another value must fit its type, and any other key is ignored. */
  function Store(c: Claims, m: Member): Option<Claims> {
    if Folded(m.key) == "SUB" then
      match StoreInt(m.value, c.sub)
      case None => None
      case Some(n) => Some(c.(sub := n))
    else if Folded(m.key) == "VENDOR_ID" then
      match StoreInt(m.value, c.vendorId)
      case None => None
      case Some(n) => Some(c.(vendorId := n))
    else if Folded(m.key) == "ROLE" && !m.value.Null? then
      if m.value.Text? then Some(c.(role := m.value.text)) else None
    else Some(c)
  }

  /** In order, so that the last of several members for one field counts. */
  function StoreAll(c: Claims, members: seq<Member>): Option<Claims>
    decreases |members|
  {
    if members == [] then Some(c)
    else
      match Store(c, members[0])
      case None => None
      case Some(d) => StoreAll(d, members[1..])
  }

  /** json.Unmarshal into zero claims, which null leaves as they are. */
  function Unmarshal(s: string): Option<Claims> {
    match Parse(s)
    case Some(Null) => Some(Claims(0, [], 0))
    case Some(Object(members)) => StoreAll(Claims(0, [], 0), members)
    case _ => None
  }

  /** A member's key and colon, before the text of its value and whatever follows. */
  function Field(key: string, rest: string): string {
    "\"" + key + "\":" + rest
  }

  /** json.Marshal of the token's map, whose keys come out in order. */
  function Marshal(sub: int, role: string, exp: int): string {
    var third := Field("sub", Decimal.Print(sub) + "}");
    var second := Field("role", "\"" + (Quote(role) + "\"" + ("," + third)));
    "{" + Field("exp", Decimal.Print(exp) + ("," + second))
  }

  /** Chars that stand for themselves inside a string literal. */
  predicate IsPlain(c: char) {
    ' ' <= c && c as int < 0x80 && c != '"' && c != '\\'
  }

  lemma {:induction false} PlainUnquotes(key: string, rest: string)
    requires forall i :: 0 <= i < |key| ==> IsPlain(key[i])
    ensures Unquote(key + "\"" + rest) == Some(Unquoted(key, rest))
    decreases |key|
  {
    var s := key + "\"" + rest;
    if key == [] {
      assert s == ['"'] + rest;
    } else {
      PlainUnquotes(key[1..], rest);
      assert s[1..] == key[1..] + "\"" + rest && s[..1] == [key[0]];
      assert RuneSize(s) == 1 && [key[0]] + key[1..] == key;
    }
  }

  lemma ReadsKey(key: string, v: string)
    requires forall i :: 0 <= i < |key| ==> IsPlain(key[i])
    requires v != [] && !IsSpace(v[0])
    ensures ReadKey(Field(key, v)) == Some(Read(key, v))
  {
    var s := Field(key, v);
    assert s[1..] == key + "\"" + (":" + v);
    PlainUnquotes(key, ":" + v);
    assert (":" + v)[1..] == v && Skip(":" + v) == ":" + v && Skip(v) == v;
  }

  /** A member whose value reads as `value`. */
  lemma ReadsMember(key: string, v: string, value: Value, rest: string, room: nat)
    requires forall i :: 0 <= i < |key| ==> IsPlain(key[i])
    requires v != [] && !IsSpace(v[0]) && ReadValue(v, room) == Some(Read(value, rest))
    ensures ReadMember(Field(key, v), room) == Some(Read(Member(key, value), rest))
  {
    ReadsKey(key, v);
  }

  lemma OtherWord(word: string, s: string)
    requires word != [] && s != [] && s[0] != word[0]
    ensures After(word, s).None?
  {
  }

  lemma BeginsNumber(s: string, room: nat)
    requires s != [] && (s[0] == '-' || IsDigit(s[0]))
    ensures !IsSpace(s[0]) && ReadValue(s, room) == ReadNumber(s)
  {
    OtherWord("true", s);
    OtherWord("false", s);
    OtherWord("null", s);
  }

  lemma PlainNumber(s: string, n: int, rest: string)
    requires ReadInt(s) == Some(Number(n, rest)) && rest != [] && (rest[0] == ',' || rest[0] == '}')
    ensures ReadNumber(s) == Some(Read(Int(n), rest))
  {
  }

  lemma FirstDigit(n: int, rest: string)
    ensures var s := Decimal.Print(n) + rest;
            s != [] && (s[0] == '-' || IsDigit(s[0]))
  {
    PrintedNat(if n < 0 then -n else n);
  }

  lemma ReadsInt(n: int, rest: string, room: nat)
    requires rest != [] && (rest[0] == ',' || rest[0] == '}')
    ensures var s := Decimal.Print(n) + rest;
            s != [] && !IsSpace(s[0]) && ReadValue(s, room) == Some(Read(Int(n), rest))
  {
    FirstDigit(n, rest);
    BeginsNumber(Decimal.Print(n) + rest, room);
    IntRoundTrip(n, rest);
    PlainNumber(Decimal.Print(n) + rest, n, rest);
  }

  lemma ReadsText(text: string, rest: string, room: nat)
    ensures ReadValue("\"" + (Quote(text) + "\"" + rest), room) == Some(Read(Text(ToValid(text)), rest))
  {
    var v := Quote(text) + "\"" + rest;
    assert ("\"" + v)[1..] == v;
    StringRoundTrip(text, rest);
  }

  lemma OneMore(s: string, m: Member, key: string, v: string, ms: seq<Member>, rest: string, room: nat)
    requires ReadMember(s, room) == Some(Read(m, "," + Field(key, v)))
    requires ReadMembers(Field(key, v), room) == Some(Read(ms, rest))
    ensures ReadMembers(s, room) == Some(Read([m] + ms, rest))
  {
    var t := "," + Field(key, v);
    assert Skip(t) == t && t[1..] == Field(key, v) && Skip(t[1..]) == t[1..];
  }

  lemma ReadsSub(sub: int, room: nat)
    ensures ReadMembers(Field("sub", Decimal.Print(sub) + "}"), room) == Some(Read([Member("sub", Int(sub))], []))
  {
    ReadsInt(sub, "}", room);
    ReadsMember("sub", Decimal.Print(sub) + "}", Int(sub), "}", room);
    assert Skip("}") == "}";
  }

  lemma ReadsRole(role: string, key: string, v: string, ms: seq<Member>, room: nat)
    requires ReadMembers(Field(key, v), room) == Some(Read(ms, []))
    ensures ReadMembers(Field("role", "\"" + (Quote(role) + "\"" + ("," + Field(key, v)))), room) ==
            Some(Read([Member("role", Text(ToValid(role)))] + ms, []))
  {
    var w := "\"" + (Quote(role) + "\"" + ("," + Field(key, v)));
    ReadsText(role, "," + Field(key, v), room);
    ReadsMember("role", w, Text(ToValid(role)), "," + Field(key, v), room);
    OneMore(Field("role", w), Member("role", Text(ToValid(role))), key, v, ms, [], room);
  }

  lemma ReadsExp(exp: int, key: string, v: string, ms: seq<Member>, room: nat)
    requires ReadMembers(Field(key, v), room) == Some(Read(ms, []))
    ensures ReadMembers(Field("exp", Decimal.Print(exp) + ("," + Field(key, v))), room) ==
            Some(Read([Member("exp", Int(exp))] + ms, []))
  {
    var w := Decimal.Print(exp) + ("," + Field(key, v));
    ReadsInt(exp, "," + Field(key, v), room);
    ReadsMember("exp", w, Int(exp), "," + Field(key, v), room);
    OneMore(Field("exp", w), Member("exp", Int(exp)), key, v, ms, [], room);
  }

  function SignedMembers(sub: int, role: string, exp: int): seq<Member> {
    [Member("exp", Int(exp))] + ([Member("role", Text(ToValid(role)))] + [Member("sub", Int(sub))])
  }

  lemma ReadsFields(sub: int, role: string, exp: int, room: nat) returns (first: string)
    ensures Marshal(sub, role, exp) == "{" + first && first != [] && first[0] == '"'
    ensures ReadMembers(first, room) == Some(Read(SignedMembers(sub, role, exp), []))
  {
    var third := Decimal.Print(sub) + "}";
    ReadsSub(sub, room);
    ReadsRole(role, "sub", third, [Member("sub", Int(sub))], room);
    var second := "\"" + (Quote(role) + "\"" + ("," + Field("sub", third)));
    ReadsExp(exp, "role", second, [Member("role", Text(ToValid(role)))] + [Member("sub", Int(sub))], room);
    first := Field("exp", Decimal.Print(exp) + ("," + Field("role", second)));
  }

  /** The members that a token is signed with, as its reader finds them. */
  lemma ReadsMarshalled(sub: int, role: string, exp: int)
    ensures Parse(Marshal(sub, role, exp)) == Some(Object(SignedMembers(sub, role, exp)))
  {
    var first := ReadsFields(sub, role, exp, MAX_DEPTH - 1);
    OpensObject(first, SignedMembers(sub, role, exp));
  }

  lemma OpensObject(first: string, ms: seq<Member>)
    requires first != [] && first[0] == '"'
    requires ReadMembers(first, MAX_DEPTH - 1) == Some(Read(ms, []))
    ensures Parse("{" + first) == Some(Object(ms))
  {
    var s := "{" + first;
    assert s[1..] == first && Skip(first) == first && Skip(s) == s;
    assert ReadValue(s, MAX_DEPTH) == ReadObject(first, MAX_DEPTH - 1);
  }

  /** The claims a token is signed with are the ones its reader decodes; only a role that is not
      UTF-8 changes. */
  lemma ClaimsRoundTrip(sub: int, role: string, exp: int)
    requires IsInt64(sub)
    ensures Unmarshal(Marshal(sub, role, exp)) == Some(Claims(sub, ToValid(role), 0))
  {
    ReadsMarshalled(sub, role, exp);
    assert SignedMembers(sub, role, exp) ==
           [Member("exp", Int(exp)), Member("role", Text(ToValid(role))), Member("sub", Int(sub))];
    StoresMarshalled(sub, ToValid(role), exp);
  }

  lemma StoresMarshalled(sub: int, role: string, exp: int)
    requires IsInt64(sub)
    ensures var members := [Member("exp", Int(exp)), Member("role", Text(role)), Member("sub", Int(sub))];
            StoreAll(Claims(0, [], 0), members) == Some(Claims(sub, role, 0))
  {
    var e, r, s := Member("exp", Int(exp)), Member("role", Text(role)), Member("sub", Int(sub));
    FoldedNames();
    assert [e, r, s][1..] == [r, s] && [r, s][1..] == [s] && [s][1..] == [];
    var c := Claims(0, [], 0);
    assert Store(c, e) == Some(c) && Store(c, r) == Some(c.(role := role));
    assert StoreAll(c.(role := role), [s]) == Some(Claims(sub, role, 0));
    assert StoreAll(c, [r, s]) == Some(Claims(sub, role, 0));
  }

  lemma FoldedNames()
    ensures Folded("exp") == "EXP" && Folded("role") == "ROLE" && Folded("sub") == "SUB"
  {
    assert "exp"[1..] == "xp" && "xp"[1..] == "p" && "p"[1..] == [];
    assert "role"[1..] == "ole" && "ole"[1..] == "le" && "le"[1..] == "e" && "e"[1..] == [];
    assert "sub"[1..] == "ub" && "ub"[1..] == "b" && "b"[1..] == [];
  }

  lemma EscapedBytes(c: char)
    requires c as int < 0x80
    ensures IsBytes(EscapeAscii(c))
  {
  }

  lemma RuneBytes(s: string)
    requires IsBytes(s)
    ensures IsBytes(EscapeRune(s))
  {
  }

  lemma {:induction false} QuoteBytes(s: string)
    requires IsBytes(s)
    ensures IsBytes(Quote(s))
    decreases |s|
  {
    if s != [] {
      if s[0] as int < 0x80 {
        QuoteBytes(s[1..]);
        EscapedBytes(s[0]);
      } else if RuneSize(s) == 0 {
        QuoteBytes(s[1..]);
      } else {
        QuoteBytes(s[RuneSize(s)..]);
        RuneBytes(s[..RuneSize(s)]);
      }
    }
  }

  lemma PrintBytes(n: int)
    ensures IsBytes(Decimal.Print(n))
  {
    var m: nat := if n < 0 then -n else n;
    PrintedNat(m);
    assert forall i :: 0 <= i < |Decimal.PrintNat(m)| ==> IsDigit(Decimal.PrintNat(m)[i]);
  }

  lemma FieldBytes(key: string, rest: string)
    requires IsBytes(key) && IsBytes(rest)
    ensures IsBytes(Field(key, rest))
  {
  }

  lemma MarshalBytes(sub: int, role: string, exp: int)
    requires IsBytes(role)
    ensures IsBytes(Marshal(sub, role, exp))
  {
    var third := Field("sub", Decimal.Print(sub) + "}");
    var second := Field("role", "\"" + (Quote(role) + "\"" + ("," + third)));
    PrintBytes(sub);
    FieldBytes("sub", Decimal.Print(sub) + "}");
    QuoteBytes(role);
    FieldBytes("role", "\"" + (Quote(role) + "\"" + ("," + third)));
    PrintBytes(exp);
    FieldBytes("exp", Decimal.Print(exp) + ("," + second));
  }

  /** The four hex digits of a \u escape. */
  function HexText(v: int): (s: string)
    requires 0 <= v < 0x1_0000
    ensures |s| == 4
  {
    [HexDigit(v / 0x1000), HexDigit(v / 0x100 % 16), HexDigit(v / 16 % 16), HexDigit(v % 16)]
  }

  lemma HexTextAgain(v: int, rest: string)
    requires 0 <= v < 0x1_0000
    ensures Hex4(HexText(v) + rest) == Some(v)
  {
    HexAgain(v / 0x1000);
    HexAgain(v / 0x100 % 16);
    HexAgain(v / 16 % 16);
    HexAgain(v % 16);
    Nibbles(v);
  }

  lemma Nibbles(v: int)
    requires 0 <= v < 0x1_0000
    ensures v / 0x1000 * 0x1000 + v / 0x100 % 16 * 0x100 + v / 16 % 16 * 16 + v % 16 == v
  {
    assert v / 0x100 == v / 0x1000 * 16 + v / 0x100 % 16;
    assert v / 16 == v / 0x100 * 16 + v / 16 % 16;
  }

  lemma PairedEscape(s: string, hi: nat, code: nat)
    requires |s| >= 12 && s[0] == '\\' && s[1] == 'u' && Hex4(s[2..]) == Some(hi) && Paired(hi, s[6..]) == Some(code)
    ensures Unquote(s) == Prepend(EncodeRune(code), Unquote(s[12..]))
  {
  }

  lemma PairedIs(hi: nat, lo: nat, s: string)
    requires 0xD800 <= hi < 0xDC00 && 0xDC00 <= lo < 0xE000
    requires |s| >= 6 && s[0] == '\\' && s[1] == 'u' && Hex4(s[2..]) == Some(lo)
    ensures Paired(hi, s) == Some(0x1_0000 + (hi - 0xD800) * 0x400 + (lo - 0xDC00))
  {
  }

  lemma PairReads(hi: nat, lo: nat, rest: string)
    requires 0xD800 <= hi < 0xDC00 && 0xDC00 <= lo < 0xE000
    ensures Unquote("\\u" + (HexText(hi) + ("\\u" + (HexText(lo) + rest)))) ==
            Prepend(EncodeRune(0x1_0000 + (hi - 0xD800) * 0x400 + (lo - 0xDC00)), Unquote(rest))
  {
    var second := "\\u" + (HexText(lo) + rest);
    var first := "\\u" + (HexText(hi) + second);
    HexTextAgain(hi, second);
    HexTextAgain(lo, rest);
    assert first[2..] == HexText(hi) + second && first[6..] == second;
    assert second[2..] == HexText(lo) + rest && first[12..] == rest;
    PairedIs(hi, lo, second);
    PairedEscape(first, hi, 0x1_0000 + (hi - 0xD800) * 0x400 + (lo - 0xDC00));
  }

  /** A code point beyond U+FFFF is read from the escapes of its two surrogates. */
  lemma SurrogatePair(code: int, rest: string)
    requires 0x1_0000 <= code <= 0x10FFFF
    ensures var hi, lo := 0xD800 + (code - 0x1_0000) / 0x400, 0xDC00 + (code - 0x1_0000) % 0x400;
            Unquote("\\u" + (HexText(hi) + ("\\u" + (HexText(lo) + rest)))) == Prepend(EncodeRune(code), Unquote(rest))
  {
    PairReads(0xD800 + (code - 0x1_0000) / 0x400, 0xDC00 + (code - 0x1_0000) % 0x400, rest);
  }

  /** Any other escape is read as its code point, a surrogate on its own as U+FFFD. */
  lemma HexEscape(code: int, rest: string)
    requires 0 <= code < 0x1_0000 && (0xD800 <= code < 0xDC00 ==> rest == [] || rest[0] != '\\')
    ensures Unquote("\\u" + (HexText(code) + rest)) ==
            Prepend(if IsScalar(code) then EncodeRune(code) else REPLACEMENT, Unquote(rest))
  {
    var s := "\\u" + (HexText(code) + rest);
    HexTextAgain(code, rest);
    assert s[2..] == HexText(code) + rest && s[6..] == rest;
  }

  /** What one more member does to the claims: the last one for a field counts, null leaves the
      field as it is, a value of another type or out of range is an error, and other keys are
      ignored. */
  lemma {:induction false} LastMemberCounts(c: Claims, members: seq<Member>, m: Member)
    ensures StoreAll(c, members + [m]) ==
            match StoreAll(c, members)
            case None => None
            case Some(d) =>
              if Folded(m.key) !in {"SUB", "ROLE", "VENDOR_ID"} || m.value.Null? then Some(d)
              else if Folded(m.key) == "ROLE" then
                if m.value.Text? then Some(d.(role := m.value.text)) else None
              else if !m.value.Int? || !IsInt64(m.value.number) then None
              else if Folded(m.key) == "SUB" then Some(d.(sub := m.value.number))
              else Some(d.(vendorId := m.value.number))
    decreases |members|
  {
    if members == [] {
      assert [] + [m] == [m] && [m][1..] == [];
    } else {
      assert (members + [m])[1..] == members[1..] + [m];
      if Store(c, members[0]).Some? {
        LastMemberCounts(Store(c, members[0]).value, members[1..], m);
      }
    }
  }

  /** A text decodes exactly if it is null or an object whose members can be stored. */
  lemma DecodesIff(s: string, c: Claims)
    ensures Unmarshal(s) == Some(c) <==>
            || (Parse(s) == Some(Null) && c == Claims(0, [], 0))
            || (exists ms :: Parse(s) == Some(Object(ms)) && StoreAll(Claims(0, [], 0), ms) == Some(c))
  {
  }

  /** Keys fold: case does not matter, nor a long s. */
  lemma FoldedKeys()
    ensures Folded("SUB") == "SUB" && Folded("Sub") == "SUB" && Folded([Byte(0xC5), Byte(0xBF), 'u', 'b']) == "SUB"
  {
    assert "SUB"[1..] == "UB" && "UB"[1..] == "B" && "B"[1..] == [];
    assert "Sub"[1..] == "ub" && "ub"[1..] == "b" && "b"[1..] == [];
    var s := [Byte(0xC5), Byte(0xBF), 'u', 'b'];
    assert s[2..] == "ub" && [Byte(0xC5), Byte(0xBF)] == s[..2];
  }
}

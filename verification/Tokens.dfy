/** Signed tokens (section 7.1 of RFC 7515): the printer, the parser, and the middleware that
    lets a request through. HMAC-SHA256 is a parameter. */
module Tokens {
  import opened Schema
  import opened Base64
  import opened Utf8
  import opened Json

  type Mac = (string, string) -> ByteString

  const HEADER: ByteString := "{\"alg\":\"HS256\",\"typ\":\"JWT\"}"

  /** sign, and what verifyHMAC expects. */
  function Sign(mac: Mac, secret: string, data: string): string {
    Encode(mac(secret, data), RAW_URL)
  }

  /** The compact serialization of a header and a payload. */
  function Compact(mac: Mac, secret: string, header: ByteString, payload: ByteString): string {
    var data := Encode(header, RAW_URL) + "." + Encode(payload, RAW_URL);
    data + "." + Sign(mac, secret, data)
  }

  function SignJWT(mac: Mac, secret: string, sub: int, role: ByteString, exp: int): string {
    MarshalBytes(sub, role, exp);
    Compact(mac, secret, HEADER, Marshal(sub, role, exp))
  }

  /** strings.Split at dots. */
  function Split(s: string): (parts: seq<string>)
    ensures parts != []
  {
    if s == [] then [[]]
    else
      var parts := Split(s[1..]);
      if s[0] == '.' then [[]] + parts else [[s[0]] + parts[0]] + parts[1..]
  }

  function Join(parts: seq<string>): string
    requires parts != []
  {
    if |parts| == 1 then parts[0] else parts[0] + "." + Join(parts[1..])
  }

  lemma {:induction false} SplitJoins(s: string)
    ensures Join(Split(s)) == s
    ensures forall i :: 0 <= i < |Split(s)| ==> '.' !in Split(s)[i]
    decreases |s|
  {
    if s != [] {
      SplitJoins(s[1..]);
      var parts := Split(s[1..]);
      if s[0] == '.' {
        assert Split(s)[1..] == parts;
        assert "." + s[1..] == s;
      } else {
        JoinLonger(s[0], parts);
        assert [s[0]] + s[1..] == s;
      }
    }
  }

  lemma JoinLonger(c: char, parts: seq<string>)
    requires parts != []
    ensures Join([[c] + parts[0]] + parts[1..]) == [c] + Join(parts)
  {
    var longer := [[c] + parts[0]] + parts[1..];
    assert longer[1..] == parts[1..];
    if |parts| > 1 {
      assert longer[0] + "." + Join(parts[1..]) == [c] + (parts[0] + "." + Join(parts[1..]));
    }
  }

  lemma {:induction false} SplitPart(a: string, rest: string)
    requires '.' !in a
    ensures Split(a + "." + rest) == [a] + Split(rest)
    decreases |a|
  {
    var s := a + "." + rest;
    if a == [] {
      assert s[0] == '.' && s[1..] == rest;
    } else {
      SplitPart(a[1..], rest);
      assert s[1..] == a[1..] + "." + rest;
      assert [a[0]] + a[1..] == a;
    }
  }

  lemma {:induction false} SplitLast(a: string)
    requires '.' !in a
    ensures Split(a) == [a]
    decreases |a|
  {
    if a != [] {
      SplitLast(a[1..]);
      assert [a[0]] + a[1..] == a;
    }
  }

  lemma SplitThree(a: string, b: string, c: string)
    requires '.' !in a && '.' !in b && '.' !in c
    ensures Split(a + "." + b + "." + c) == [a, b, c]
  {
    SplitPart(a, b + "." + c);
    SplitPart(b, c);
    SplitLast(c);
    assert a + "." + b + "." + c == a + "." + (b + "." + c);
  }

  predicate VerifyHMAC(mac: Mac, secret: string, data: string, sig: string) {
    Sign(mac, secret, data) == sig
  }

  function ParseJWT(mac: Mac, secret: string, token: string): Option<Claims> {
    var parts := Split(token);
    if |parts| != 3 || !VerifyHMAC(mac, secret, parts[0] + "." + parts[1], parts[2]) then None
    else
      match Decode(parts[1], RAW_URL)
      case None => None
      case Some(payload) => Unmarshal(payload)
  }

  predicate ValidateJWT(mac: Mac, secret: string, token: string) {
    var p := Split(token);
    |p| == 3 && Sign(mac, secret, p[0] + "." + p[1]) == p[2]
  }

  /** The three parts of a token: none of them holds a dot. */
  lemma CompactParts(mac: Mac, secret: string, header: ByteString, payload: ByteString)
    ensures var head, body := Encode(header, RAW_URL), Encode(payload, RAW_URL);
            Split(Compact(mac, secret, header, payload)) == [head, body, Sign(mac, secret, head + "." + body)]
  {
    UrlSound();
    var head, body := Encode(header, RAW_URL), Encode(payload, RAW_URL);
    EncodingPlain(header, RAW_URL);
    EncodingPlain(payload, RAW_URL);
    EncodingPlain(mac(secret, head + "." + body), RAW_URL);
    SplitThree(head, body, Sign(mac, secret, head + "." + body));
  }

  lemma CompactParses(mac: Mac, secret: string, header: ByteString, payload: ByteString)
    ensures ValidateJWT(mac, secret, Compact(mac, secret, header, payload))
    ensures |Split(Compact(mac, secret, header, payload))| == 3
    ensures ParseJWT(mac, secret, Compact(mac, secret, header, payload)) == Unmarshal(payload)
  {
    CompactParts(mac, secret, header, payload);
    UrlSound();
    RoundTrip(payload, RAW_URL);
  }

  /** A signed token has exactly three parts, validates, and decodes to the claims it was signed
      with, for every key, user and role and whatever the MAC; a role that is not UTF-8 comes
      out with its stray bytes replaced. */
  lemma TokenRoundTrip(mac: Mac, secret: string, sub: int, role: ByteString, exp: int)
    requires IsInt64(sub)
    ensures var token := SignJWT(mac, secret, sub, role, exp);
            && |Split(token)| == 3
            && ValidateJWT(mac, secret, token)
            && ParseJWT(mac, secret, token) == Some(Claims(sub, ToValid(role), 0))
  {
    MarshalBytes(sub, role, exp);
    CompactParses(mac, secret, HEADER, Marshal(sub, role, exp));
    ClaimsRoundTrip(sub, role, exp);
  }

  /** The role survives the round trip exactly when it is UTF-8. */
  lemma RoleSurvives(mac: Mac, secret: string, sub: int, role: ByteString, exp: int)
    requires IsInt64(sub)
    ensures ParseJWT(mac, secret, SignJWT(mac, secret, sub, role, exp)) == Some(Claims(sub, role, 0)) <==> IsUtf8(role)
  {
    TokenRoundTrip(mac, secret, sub, role, exp);
    ValidUnchanged(role);
  }

  /** `token` is two dotless parts and their signature, and the second holds the claims `c`. */
  ghost predicate Bears(mac: Mac, secret: string, token: string, head: string, body: string, c: Claims) {
    && '.' !in head && '.' !in body
    && token == head + "." + body + "." + Encode(mac(secret, head + "." + body), RAW_URL)
    && Decode(body, RAW_URL).Some? && Unmarshal(Decode(body, RAW_URL).value) == Some(c)
  }

  lemma BearerIsParsed(mac: Mac, secret: string, token: string, head: string, body: string, c: Claims)
    requires Bears(mac, secret, token, head, body, c)
    ensures ParseJWT(mac, secret, token) == Some(c)
  {
    UrlSound();
    EncodingPlain(mac(secret, head + "." + body), RAW_URL);
    SplitThree(head, body, Sign(mac, secret, head + "." + body));
  }

  /** The parser accepts exactly the texts whose last part signs the other two. */
  lemma ParsesIff(mac: Mac, secret: string, token: string, c: Claims)
    ensures ParseJWT(mac, secret, token) == Some(c) <==> exists head, body :: Bears(mac, secret, token, head, body, c)
  {
    if ParseJWT(mac, secret, token) == Some(c) {
      SplitJoins(token);
      var p := Split(token);
      assert Join(p) == p[0] + "." + Join(p[1..]) && Join(p[1..]) == p[1] + "." + Join(p[1..][1..]);
      assert token == p[0] + "." + p[1] + "." + p[2];
      assert Bears(mac, secret, token, p[0], p[1], c);
    }
    if exists head, body :: Bears(mac, secret, token, head, body, c) {
      var head, body :| Bears(mac, secret, token, head, body, c);
      BearerIsParsed(mac, secret, token, head, body, c);
    }
  }

  lemma UrlRoundTrip(s: ByteString)
    ensures Decode(Encode(s, RAW_URL), RAW_URL) == Some(s)
  {
    UrlSound();
    RoundTrip(s, RAW_URL);
  }

  lemma CompactDecodes(mac: Mac, secret: string, header: ByteString, payload: ByteString)
    ensures var p := Split(Compact(mac, secret, header, payload));
            && |p| == 3 && Decode(p[0], RAW_URL) == Some(header) && Decode(p[1], RAW_URL) == Some(payload)
            && Decode(p[2], RAW_URL) == Some(mac(secret, p[0] + "." + p[1]))
  {
    CompactParts(mac, secret, header, payload);
    UrlRoundTrip(header);
    UrlRoundTrip(payload);
    UrlRoundTrip(mac(secret, Encode(header, RAW_URL) + "." + Encode(payload, RAW_URL)));
  }

  /** What the three parts of a signed token decode to: the header, the claims, and the MAC of the
      text before the second dot. */
  lemma SignedParts(mac: Mac, secret: string, sub: int, role: ByteString, exp: int)
    ensures var p := Split(SignJWT(mac, secret, sub, role, exp));
            && |p| == 3
            && Decode(p[0], RAW_URL) == Some("{\"alg\":\"HS256\",\"typ\":\"JWT\"}")
            && Decode(p[1], RAW_URL) == Some(Marshal(sub, role, exp))
            && Decode(p[2], RAW_URL) == Some(mac(secret, p[0] + "." + p[1]))
  {
    MarshalBytes(sub, role, exp);
    CompactDecodes(mac, secret, HEADER, Marshal(sub, role, exp));
  }

  /** A text of three dotless parts is accepted by either check only if the third is the encoded MAC
      of the other two under the secret: a payload or a header put beside another's signature is
      refused unless the MACs agree. */
  lemma SignatureNeeded(mac: Mac, secret: string, head: string, body: string, sig: string)
    requires '.' !in head && '.' !in body && '.' !in sig
    ensures var token := head + "." + body + "." + sig;
            var expected := Encode(mac(secret, head + "." + body), RAW_URL);
            && (ValidateJWT(mac, secret, token) <==> sig == expected)
            && (ParseJWT(mac, secret, token).Some? ==> sig == expected)
            && (sig == expected ==>
                  ParseJWT(mac, secret, token) ==
                  match Decode(body, RAW_URL) case None => None case Some(payload) => Unmarshal(payload))
  {
    SplitThree(head, body, sig);
  }

  /** A payload put beside the signature of another is accepted only where the two MACs agree. */
  lemma ForgeryNeedsCollision(mac: Mac, secret: string, head: string, body: string, forged: string)
    requires '.' !in head && '.' !in body && '.' !in forged
    ensures var token := head + "." + forged + "." + Encode(mac(secret, head + "." + body), RAW_URL);
            ParseJWT(mac, secret, token).Some? || ValidateJWT(mac, secret, token) ==>
              mac(secret, head + "." + forged) == mac(secret, head + "." + body)
  {
    UrlSound();
    var a, b := mac(secret, head + "." + forged), mac(secret, head + "." + body);
    EncodingPlain(b, RAW_URL);
    SignatureNeeded(mac, secret, head, forged, Encode(b, RAW_URL));
    RoundTrip(a, RAW_URL);
    RoundTrip(b, RAW_URL);
  }

  /** The values the middleware stores for a request. */
  datatype Context = Context(userId: Option<int>, role: Option<string>, vendorId: Option<int>)
  datatype Request = Request(authorization: string, context: Context)
  datatype Response = Response(status: int, body: string)

  type Handler = Request -> Response
  type Middleware = Handler -> Handler

  const UNAUTHORIZED := 401
  const FORBIDDEN := 403

  const BEARER: string := "Bearer "

  function ExtractBearer(r: Request): string {
    if BEARER <= r.authorization then r.authorization[|BEARER|..] else []
  }

  /** A token is what follows "Bearer " and nothing else. */
  lemma BearerOnly(r: Request, token: string)
    requires token != []
    ensures ExtractBearer(r) == token <==> r.authorization == "Bearer " + token
  {
    if r.authorization == "Bearer " + token {
      assert r.authorization[|BEARER|..] == token;
    }
    if ExtractBearer(r) == token {
      assert r.authorization == r.authorization[..|BEARER|] + r.authorization[|BEARER|..];
    }
  }

  function JsonError(status: int, message: string): Response {
    Response(status, "{\"error\":\"" + message + "\"}")
  }

  function JWT(mac: Mac, secret: string): Middleware {
    (next: Handler) => (r: Request) =>
      var token := ExtractBearer(r);
      if token == [] then JsonError(UNAUTHORIZED, "missing token")
      else
        match ParseJWT(mac, secret, token)
        case None => JsonError(UNAUTHORIZED, "invalid token")
        case Some(c) => next(r.(context := Context(Some(c.sub), Some(c.role), Some(c.vendorId))))
  }

  /** A request without a role is treated as one whose role is empty. */
  function RequireRole(allowed: set<string>): Middleware {
    (next: Handler) => (r: Request) =>
      var role := if r.context.role.Some? then r.context.role.value else [];
      if role !in allowed then JsonError(FORBIDDEN, "forbidden") else next(r)
  }

  /** The set RequireRole looks roles up in. */
  method AllowedRoles(roles: seq<string>) returns (allowed: set<string>)
    ensures forall r :: r in allowed <==> r in roles
  {
    allowed := {};
    for i := 0 to |roles|
      invariant forall r :: r in allowed <==> r in roles[..i]
    {
      allowed := allowed + {roles[i]};
    }
  }

  /** The first middleware listed is the outermost. */
  function Compose(h: Handler, mws: seq<Middleware>): Handler {
    if mws == [] then h else mws[0](Compose(h, mws[1..]))
  }

  /** Chain wraps from the right. */
  method Chain(h: Handler, mws: seq<Middleware>) returns (r: Handler)
    ensures r == Compose(h, mws)
  {
    r := h;
    var i := |mws|;
    while i > 0
      invariant 0 <= i <= |mws|
      invariant r == Compose(h, mws[i..])
    {
      i := i - 1;
      assert mws[i..][1..] == mws[i + 1..];
      r := mws[i](r);
    }
    assert mws[0..] == mws;
  }

  lemma GuardedBy(mac: Mac, secret: string, allowed: set<string>, h: Handler, r: Request)
    ensures var guarded := Compose(h, [JWT(mac, secret), RequireRole(allowed)]);
            guarded(r) ==
            var token := ExtractBearer(r);
            if token == [] then JsonError(UNAUTHORIZED, "missing token")
            else
              match ParseJWT(mac, secret, token)
              case None => JsonError(UNAUTHORIZED, "invalid token")
              case Some(c) =>
                if c.role in allowed then h(r.(context := Context(Some(c.sub), Some(c.role), Some(c.vendorId))))
                else JsonError(FORBIDDEN, "forbidden")
  {
    var mws := [JWT(mac, secret), RequireRole(allowed)];
    assert mws[1..] == [RequireRole(allowed)] && mws[1..][1..] == [];
    assert Compose(h, mws[1..]) == RequireRole(allowed)(h);
    assert Compose(h, mws) == JWT(mac, secret)(RequireRole(allowed)(h));
  }

  /** The role check on its own: a request that carries no role has the empty one. */
  lemma RoleNeeded(allowed: set<string>, h: Handler, r: Request)
    ensures RequireRole(allowed)(h)(r) ==
            if (r.context.role.Some? && r.context.role.value in allowed) || (r.context.role.None? && [] in allowed)
            then h(r)
            else JsonError(403, "forbidden")
  {
  }

  /** Through the chain, a signed token reaches the handler with its own user and its role, stray
      bytes replaced, exactly when that role is allowed, whatever the handler; otherwise the
      request is forbidden. */
  lemma TokenReachesHandler(mac: Mac, secret: string, sub: int, role: ByteString, exp: int,
                            allowed: set<string>, h: Handler, r: Request)
    requires IsInt64(sub)
    requires r.authorization == BEARER + SignJWT(mac, secret, sub, role, exp)
    ensures Compose(h, [JWT(mac, secret), RequireRole(allowed)])(r) ==
            if ToValid(role) in allowed then h(r.(context := Context(Some(sub), Some(ToValid(role)), Some(0))))
            else JsonError(FORBIDDEN, "forbidden")
  {
    var token := SignJWT(mac, secret, sub, role, exp);
    TokenRoundTrip(mac, secret, sub, role, exp);
    assert r.authorization[|BEARER|..] == token;
    GuardedBy(mac, secret, allowed, h, r);
  }

  /** A request that carries no token the parser accepts never reaches the handler. */
  lemma NoTokenNoEntry(mac: Mac, secret: string, allowed: set<string>, h: Handler, r: Request)
    requires ParseJWT(mac, secret, ExtractBearer(r)).None?
    ensures Compose(h, [JWT(mac, secret), RequireRole(allowed)])(r).status == UNAUTHORIZED
  {
    GuardedBy(mac, secret, allowed, h, r);
  }
}

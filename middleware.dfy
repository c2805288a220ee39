/**
 * internal/api/middleware.go: the bearer-token middleware, split into extractTokenFromHeader,
 * parseJWTToken and validateToken. Every failure aborts the chain with exactly one 401; only a
 * request whose header, signature and claims all pass gets its claims stored and the chain continued.
 */
module Middleware {
  import opened Base
  import opened Strings
  import opened Jwt
  import opened Gin

  const HeaderRequired: string := "Authorization header is required"
  const HeaderFormat: string := "Invalid authorization header format"
  const InvalidToken: string := "Invalid token"
  const InvalidTokenPrefix: string := "Invalid token: "
  const ClaimsKey: string := "jwtClaims"

  /**
   * extractTokenFromHeader: the header must split on single spaces into exactly "Bearer" and the
   * token. So a header is accepted exactly when it is "Bearer " followed by a space-free token.
   */
  function ExtractTokenFromHeader(header: string): (r: Outcome<string>)
    ensures r.Ok? ==> header == "Bearer " + r.value && r.value == header[7..] && ' ' !in r.value
    ensures r.Err? ==> r.msg == (if header == "" then HeaderRequired else HeaderFormat)
  {
    if header == "" then Err(HeaderRequired)
    else
      var parts := Split(header, ' ');
      if |parts| != 2 || parts[0] != "Bearer" then Err(HeaderFormat)
      else
        assert Join(parts, ' ') == parts[0] + " " + parts[1];
        Ok(parts[1])
  }

  /** The key function handed to jwt.Parse: the secret for an HMAC token, ErrSignatureInvalid otherwise. */
  function KeyFor(secret: string, token: Token): (r: Outcome<string>)
    ensures r.Ok? <==> token.signingMethod.family == HMAC
    ensures r.Ok? ==> r.value == secret
    ensures r.Err? ==> r.msg == ErrSignatureInvalid
  {
    if token.signingMethod.family != HMAC then Err(ErrSignatureInvalid) else Ok(secret)
  }

  /** parseJWTToken */
  function ParseJwtToken(lib: Library, secret: string, tokenString: string): Outcome<Token>
  {
    Jwt.Parse(lib, tokenString, t => KeyFor(secret, t))
  }

  /** What validateToken accepts: map claims on a valid token. */
  predicate Admissible(token: Token)
  {
    token.claims.MapClaims? && token.valid
  }

  /** The middleware's verdict on one request: abort with this 401 message, or store these claims and continue. */
  datatype Decision = Reject(message: string) | Admit(claims: Claims)

  /** The whole middleware as a decision on the header, given the JWT library and the secret. */
  function Decide(header: string, lib: Library, secret: string): (d: Decision)
    ensures d.Admit? <==> ExtractTokenFromHeader(header).Ok?
                          && ParseJwtToken(lib, secret, ExtractTokenFromHeader(header).value).Ok?
                          && Admissible(ParseJwtToken(lib, secret, ExtractTokenFromHeader(header).value).value)
    ensures d.Admit? ==> d.claims.MapClaims?
  {
    match ExtractTokenFromHeader(header)
    case Err(msg) => Reject(msg)
    case Ok(tokenString) =>
      match ParseJwtToken(lib, secret, tokenString)
      case Err(msg) => Reject(InvalidTokenPrefix + msg)
      case Ok(token) => if Admissible(token) then Admit(token.claims) else Reject(InvalidToken)
  }

  /** The context after the middleware: a rejection aborts with one 401; an admission stores the claims and calls Next. */
  function Applied(s: State, d: Decision): State
  {
    match d
    case Reject(message) =>
      s.(writes := s.writes + [Response(StatusUnauthorized, ErrorJson(message))], aborted := true)
    case Admit(claims) =>
      s.(keys := s.keys[ClaimsKey := ClaimsValue(claims)], nextCalled := true)
  }

  /** validateToken: stores the claims under "jwtClaims" exactly when they are map claims on a valid token. */
  method ValidateToken(c: Context, token: Token) returns (ok: bool)
    modifies c
    ensures ok == Admissible(token)
    ensures c.Snapshot() == if ok then old(c.Snapshot()).(keys := old(c.keys)[ClaimsKey := ClaimsValue(token.claims)])
                            else old(c.Snapshot())
  {
    if token.claims.MapClaims? && token.valid {
      c.Set(ClaimsKey, ClaimsValue(token.claims));
      return true;
    }
    return false;
  }

  /** The handler function authMiddleware returns. */
  method AuthMiddleware(c: Context, lib: Library, secret: string)
    modifies c
    ensures c.Snapshot() == Applied(old(c.Snapshot()), Decide(c.header, lib, secret))
  {
    var extracted := ExtractTokenFromHeader(c.header);
    if extracted.Err? {
      c.AbortWithStatusJSON(StatusUnauthorized, ErrorJson(extracted.msg));
      return;
    }
    var parsed := ParseJwtToken(lib, secret, extracted.value);
    if parsed.Err? {
      c.AbortWithStatusJSON(StatusUnauthorized, ErrorJson(InvalidTokenPrefix + parsed.msg));
      return;
    }
    var ok := ValidateToken(c, parsed.value);
    if !ok {
      c.AbortWithStatusJSON(StatusUnauthorized, ErrorJson(InvalidToken));
      return;
    }
    c.Next();
  }

  /** Round trip: "Bearer " + t yields exactly t when t has no space (the empty token included), and is refused otherwise. */
  lemma ExtractRoundTrip(t: string)
    ensures ExtractTokenFromHeader("Bearer " + t) == if ' ' !in t then Ok(t) else Err(HeaderFormat)
  {
    var header := "Bearer " + t;
    if ' ' !in t {
      SplitJoin(["Bearer", t], ' ');
      assert Join(["Bearer", t], ' ') == header;
    } else {
      assert header[7..] == t;
    }
  }

  /** Near misses: the wrong case, no token, and two spaces are all format errors. */
  lemma NearMissesRejected()
    ensures ExtractTokenFromHeader("bearer x") == Err(HeaderFormat)
    ensures ExtractTokenFromHeader("Bearer") == Err(HeaderFormat)
    ensures ExtractTokenFromHeader("Bearer  x") == Err(HeaderFormat)
  {
  }

  /**
   * A token signed outside the HMAC family is refused with ErrSignatureInvalid before any key is
   * used: the outcome depends neither on the secret nor on what verification would have answered.
   */
  lemma NonHmacRejectedBeforeVerification(lib1: Library, lib2: Library, secret1: string, secret2: string, tokenString: string)
    requires lib1.decode(tokenString) == lib2.decode(tokenString)
    requires lib1.decode(tokenString).Ok? && lib1.decode(tokenString).value.signingMethod.family != HMAC
    ensures ParseJwtToken(lib1, secret1, tokenString) == Err(ErrSignatureInvalid)
    ensures ParseJwtToken(lib2, secret2, tokenString) == Err(ErrSignatureInvalid)
  {
  }

  /** The failures, in order: header, then parse (with the library's reason after "Invalid token: "), then claims. */
  lemma RejectionMessages(header: string, lib: Library, secret: string)
    ensures var d := Decide(header, lib, secret);
            var e := ExtractTokenFromHeader(header);
            && (e.Err? ==> d == Reject(e.msg))
            && (e.Ok? && ParseJwtToken(lib, secret, e.value).Err? ==>
                  d == Reject(InvalidTokenPrefix + ParseJwtToken(lib, secret, e.value).msg))
            && (e.Ok? && ParseJwtToken(lib, secret, e.value).Ok? && !Admissible(ParseJwtToken(lib, secret, e.value).value) ==>
                  d == Reject(InvalidToken))
  {
  }

  /**
   * Exactly one of two things happens: the chain continues with the claims stored and nothing
   * written, or it is aborted with exactly one 401 and nothing stored.
   */
  lemma ContinuesOnlyOnSuccess(s: State, d: Decision)
    requires !s.nextCalled && !s.aborted
    ensures var t := Applied(s, d);
            && (t.nextCalled <==> d.Admit?)
            && (t.nextCalled ==> t.writes == s.writes && t.keys[ClaimsKey] == ClaimsValue(d.claims))
            && (!t.nextCalled ==> t.aborted && t.keys == s.keys
                                  && t.writes == s.writes + [Response(StatusUnauthorized, ErrorJson(d.message))])
  {
  }
}

/**
 * internal/api/maddleware.go: a second declaration of authMiddleware on the same Router, with the
 * whole pipeline written inline in one closure. Modelled as its own module; SameAsMiddleware shows
 * that it decides every request exactly as internal/api/middleware.go does.
 */
module InlineMiddleware {
  import opened Base
  import opened Strings
  import opened Jwt
  import opened Gin
  import Middleware

  /** The closure's verdict on one request. */
  function Decide(header: string, lib: Library, secret: string): (d: Middleware.Decision)
    ensures d.Admit? ==> d.claims.MapClaims?
    ensures header == "" ==> d == Middleware.Reject("Authorization header is required")
  {
    if header == "" then Middleware.Reject("Authorization header is required")
    else
      var tokenParts := Split(header, ' ');
      if |tokenParts| != 2 || tokenParts[0] != "Bearer" then Middleware.Reject("Invalid authorization header format")
      else
        var tokenString := tokenParts[1];
        var keyFunc := (t: Token) => if t.signingMethod.family != HMAC then Err(ErrSignatureInvalid) else Ok(secret);
        match Jwt.Parse(lib, tokenString, keyFunc)
        case Err(msg) => Middleware.Reject("Invalid token: " + msg)
        case Ok(token) =>
          if token.claims.MapClaims? && token.valid then Middleware.Admit(token.claims)
          else Middleware.Reject("Invalid token")
  }

  /** The handler function this authMiddleware returns. */
  method AuthMiddleware(c: Context, lib: Library, secret: string)
    modifies c
    ensures c.Snapshot() == Middleware.Applied(old(c.Snapshot()), Decide(c.header, lib, secret))
  {
    var authHeader := c.header;
    if authHeader == "" {
      c.AbortWithStatusJSON(StatusUnauthorized, ErrorJson("Authorization header is required"));
      return;
    }
    var tokenParts := Split(authHeader, ' ');
    if |tokenParts| != 2 || tokenParts[0] != "Bearer" {
      c.AbortWithStatusJSON(StatusUnauthorized, ErrorJson("Invalid authorization header format"));
      return;
    }
    var tokenString := tokenParts[1];
    var keyFunc := (t: Token) => if t.signingMethod.family != HMAC then Err(ErrSignatureInvalid) else Ok(secret);
    var parsed := Jwt.Parse(lib, tokenString, keyFunc);
    if parsed.Err? {
      c.AbortWithStatusJSON(StatusUnauthorized, ErrorJson("Invalid token: " + parsed.msg));
      return;
    }
    var token := parsed.value;
    if token.claims.MapClaims? && token.valid {
      c.Set("jwtClaims", ClaimsValue(token.claims));
      c.Next();
    } else {
      c.AbortWithStatusJSON(StatusUnauthorized, ErrorJson("Invalid token"));
      return;
    }
  }

  /**
   * The two declarations of authMiddleware agree on every header and every library outcome: same
   * verdict, hence the same 401 message, the same stored claims and the same continuation.
   */
  lemma SameAsMiddleware(header: string, lib: Library, secret: string)
    ensures Decide(header, lib, secret) == Middleware.Decide(header, lib, secret)
  {
    if header != "" {
      var parts := Split(header, ' ');
      if |parts| == 2 && parts[0] == "Bearer" {
        var keyFunc := (t: Token) => if t.signingMethod.family != HMAC then Err(ErrSignatureInvalid) else Ok(secret);
        assert Jwt.Parse(lib, parts[1], keyFunc) == Middleware.ParseJwtToken(lib, secret, parts[1]);
      }
    }
  }

  /**
   * The token handed to the parser is the second split part: with the header "Bearer " + t, the
   * verdict is the parse of exactly t.
   */
  lemma ParsesSecondPart(t: string, lib: Library, secret: string)
    requires ' ' !in t
    ensures Decide("Bearer " + t, lib, secret)
            == match Middleware.ParseJwtToken(lib, secret, t)
               case Err(msg) => Middleware.Reject("Invalid token: " + msg)
               case Ok(token) =>
                 if Middleware.Admissible(token) then Middleware.Admit(token.claims) else Middleware.Reject("Invalid token")
  {
    Middleware.ExtractRoundTrip(t);
    SameAsMiddleware("Bearer " + t, lib, secret);
  }
}

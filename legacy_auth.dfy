/**
 * api/auth_middleware.go: the older middleware. It only strips a "Bearer " prefix: no split, no
 * signature check, no claims. The token is stored as a string under "user_token".
 */
module LegacyAuth {
  import opened Base
  import opened Strings
  import opened Gin
  import Middleware

  const HeaderRequired: string := "Authorization header is required"
  const HeaderFormat: string := "Invalid Authorization header format"
  const TokenKey: string := "user_token"
  const BearerPrefix: string := "Bearer "

  /** The verdict: abort with this 401 message, or store this token and continue. */
  datatype Decision = Reject(message: string) | Admit(token: string)

  /** A non-empty header is accepted exactly when it starts with "Bearer "; the token is the rest, spaces and all. */
  function Decide(header: string): (d: Decision)
    ensures d.Admit? <==> HasPrefix(header, BearerPrefix)
    ensures d.Admit? ==> header == BearerPrefix + d.token
    ensures d.Reject? ==> d.message == (if header == "" then HeaderRequired else HeaderFormat)
  {
    if header == "" then Reject(HeaderRequired)
    else
      var token := TrimPrefix(header, BearerPrefix);
      if token == header then Reject(HeaderFormat)
      else Admit(token)
  }

  /** The context afterwards: c.JSON then c.Abort on a rejection; c.Set and c.Next on an admission. */
  function Applied(s: State, d: Decision): State
  {
    match d
    case Reject(message) =>
      s.(writes := s.writes + [Response(StatusUnauthorized, ErrorJson(message))], aborted := true)
    case Admit(token) =>
      s.(keys := s.keys[TokenKey := StringValue(token)], nextCalled := true)
  }

  /** The handler function AuthMiddleware returns. */
  method AuthMiddleware(c: Context)
    modifies c
    ensures c.Snapshot() == Applied(old(c.Snapshot()), Decide(c.header))
  {
    var authHeader := c.header;
    if authHeader == "" {
      c.JSON(StatusUnauthorized, ErrorJson(HeaderRequired));
      c.Abort();
      return;
    }
    var token := TrimPrefix(authHeader, BearerPrefix);
    if token == authHeader {
      c.JSON(StatusUnauthorized, ErrorJson(HeaderFormat));
      c.Abort();
      return;
    }
    c.Set(TokenKey, StringValue(token));
    c.Next();
  }

  /** Round trip: "Bearer " + t yields exactly t for every t, the empty token and tokens with spaces included. */
  lemma RoundTrip(t: string)
    ensures Decide(BearerPrefix + t) == Admit(t)
  {
    var header := BearerPrefix + t;
    assert header[..|BearerPrefix|] == BearerPrefix;
  }

  /** "Bearer a b" is admitted here with the token "a b", and refused by the split-based parser. */
  lemma AcceptsWhatSplitRefuses()
    ensures Decide("Bearer a b") == Admit("a b")
    ensures Middleware.ExtractTokenFromHeader("Bearer a b") == Err(Middleware.HeaderFormat)
  {
    RoundTrip("a b");
    assert ' ' in "a b" by { assert "a b"[1] == ' '; }
    Middleware.ExtractRoundTrip("a b");
  }

  /** The split-based parser is the stricter one: whatever it extracts, this middleware extracts too. */
  lemma SplitParserStricter(header: string)
    ensures Middleware.ExtractTokenFromHeader(header).Ok? ==>
              Decide(header) == Admit(Middleware.ExtractTokenFromHeader(header).value)
  {
    if Middleware.ExtractTokenFromHeader(header).Ok? {
      RoundTrip(Middleware.ExtractTokenFromHeader(header).value);
    }
  }

  /** Both middlewares refuse an empty header with the same message; their format messages differ in case. */
  lemma MessagesCompared()
    ensures Decide("") == Reject(Middleware.HeaderRequired)
    ensures HeaderFormat != Middleware.HeaderFormat
  {
    assert HeaderFormat[8] == 'A' && Middleware.HeaderFormat[8] == 'a';
  }
}

/**
 * internal/api/auth_handlers.go: the helpers every handler starts with. Each either lets the
 * handler proceed with a value or writes one error response and stops it: parseIDParam (400),
 * bindJSON (400), getUserID (401) and validateUserAccess (401, then 400, then 403).
 * getUserIDFromToken is the response-free twin of getUserID.
 */
module AuthHandlers {
  import opened Base
  import opened Strconv
  import opened Jwt
  import opened Gin
  import Middleware

  const AuthRequired: string := "Authentication required"
  const InvalidToken: string := "Invalid token"
  const UserIdNotFound: string := "User ID not found"
  const ClaimsNotFound: string := "token claims not found"
  const ClaimsFormat: string := "invalid token claims format"
  const UserIdMissing: string := "user ID not found in token"
  const InvalidUserId: string := "Invalid user ID"
  const AccessDenied: string := "Access denied"

  /** The stored claims name user `id`: map claims under "jwtClaims" whose "id" is that number. */
  predicate ClaimsIdentify(keys: map<string, Value>, id: UInt64)
  {
    && Middleware.ClaimsKey in keys
    && keys[Middleware.ClaimsKey].ClaimsValue?
    && keys[Middleware.ClaimsKey].claims.MapClaims?
    && "id" in keys[Middleware.ClaimsKey].claims.entries
    && keys[Middleware.ClaimsKey].claims.entries["id"] == Number(id)
  }

  function Unauthorized<T>(msg: string): Reply<T>
  {
    Respond(Response(StatusUnauthorized, ErrorJson(msg)))
  }

  /** parseIDParam: a decimal path parameter of the given bit size, or 400 "Invalid <param> format". */
  function ParseIdParamReply(param: string, value: string, bitSize: int): (r: Reply<int>)
    ensures r.Proceed? ==> Strconv.ParseInt(value, bitSize) == Some(r.value)
    ensures r.Respond? ==> Strconv.ParseInt(value, bitSize) == None
                           && r.response == Response(StatusBadRequest, ErrorJson("Invalid " + param + " format"))
  {
    match Strconv.ParseInt(value, bitSize)
    case None => Respond(Response(StatusBadRequest, ErrorJson("Invalid " + param + " format")))
    case Some(id) => Proceed(id)
  }

  /** bindJSON: the bound value, or 400 carrying the binding error's text. */
  function BindJsonReply<T>(bound: Outcome<T>): (r: Reply<T>)
    ensures r.Proceed? <==> bound.Ok?
    ensures r.Proceed? ==> r.value == bound.value
    ensures r.Respond? ==> r.response == Response(StatusBadRequest, ErrorJson(bound.msg))
  {
    match bound
    case Err(msg) => Respond(Response(StatusBadRequest, ErrorJson(msg)))
    case Ok(v) => Proceed(v)
  }

  /**
   * getUserID: proceeds with the id exactly when the claims identify a user; otherwise one 401,
   * whose message names the first check that failed.
   */
  function GetUserIdReply(keys: map<string, Value>): (r: Reply<UInt64>)
    ensures r.Proceed? ==> ClaimsIdentify(keys, r.value)
    ensures r.Respond? ==> forall id: UInt64 :: !ClaimsIdentify(keys, id)
    ensures r.Respond? ==> r.response.status == StatusUnauthorized
  {
    if Middleware.ClaimsKey !in keys then Unauthorized(AuthRequired)
    else
      var claims := keys[Middleware.ClaimsKey];
      if !(claims.ClaimsValue? && claims.claims.MapClaims?) then Unauthorized(InvalidToken)
      else
        var entries := claims.claims.entries;
        if "id" !in entries || !entries["id"].Number? then Unauthorized(UserIdNotFound)
        else Proceed(entries["id"].asUint)
  }

  /** getUserIDFromToken: the same checks in the same order, answered as an error value instead of a response. */
  function GetUserIdFromToken(keys: map<string, Value>): (r: Outcome<UInt64>)
    ensures r.Ok? ==> ClaimsIdentify(keys, r.value)
    ensures r.Err? ==> r.msg in {ClaimsNotFound, ClaimsFormat, UserIdMissing}
  {
    if Middleware.ClaimsKey !in keys then Err(ClaimsNotFound)
    else
      var claims := keys[Middleware.ClaimsKey];
      if !(claims.ClaimsValue? && claims.claims.MapClaims?) then Err(ClaimsFormat)
      else
        var entries := claims.claims.entries;
        if "id" !in entries || !entries["id"].Number? then Err(UserIdMissing)
        else Ok(entries["id"].asUint)
  }

  /** validateUserAccess: the token's user must be the user named by the path; 401, then 400, then 403. */
  function ValidateUserAccessReply(keys: map<string, Value>, paramUserId: string): (r: Reply<UInt64>)
    ensures r.Proceed? <==> ParseUint64(paramUserId).Some? && ClaimsIdentify(keys, ParseUint64(paramUserId).value)
    ensures r.Proceed? ==> r.value == ParseUint64(paramUserId).value
    ensures r.Respond? ==> r.response.status in {StatusUnauthorized, StatusBadRequest, StatusForbidden}
  {
    match GetUserIdReply(keys)
    case Respond(resp) => Respond(resp)
    case Proceed(tokenUserId) =>
      match ParseUint64(paramUserId)
      case None => Respond(Response(StatusBadRequest, ErrorJson(InvalidUserId)))
      case Some(userId) =>
        if tokenUserId != userId then Respond(Response(StatusForbidden, ErrorJson(AccessDenied)))
        else Proceed(userId)
  }

  method ParseIdParam(c: Context, param: string, bitSize: int) returns (id: int, ok: bool)
    modifies c
    ensures var r := ParseIdParamReply(param, c.Param(param), bitSize);
            && ok == r.Proceed? && id == (if ok then r.value else 0)
            && c.Snapshot() == old(c.Snapshot()).AfterReply(r)
  {
    var parsed := Strconv.ParseInt(c.Param(param), bitSize);
    if parsed.None? {
      c.JSON(StatusBadRequest, ErrorJson("Invalid " + param + " format"));
      return 0, false;
    }
    return parsed.value, true;
  }

  /** bindJSON; on success the caller reads the bound value from `bound`. */
  method BindJson<T>(c: Context, bound: Outcome<T>) returns (ok: bool)
    modifies c
    ensures ok == bound.Ok?
    ensures c.Snapshot() == old(c.Snapshot()).AfterStep(Step(BindJsonReply(bound), [], true))
  {
    var r := c.ShouldBindJSON(bound);
    if r.Err? {
      c.JSON(StatusBadRequest, ErrorJson(r.msg));
      return false;
    }
    return true;
  }

  method GetUserId(c: Context) returns (id: UInt64, ok: bool)
    modifies c
    ensures var r := GetUserIdReply(old(c.keys));
            && ok == r.Proceed? && id == (if ok then r.value else 0)
            && c.Snapshot() == old(c.Snapshot()).AfterReply(r)
  {
    var claims := c.Get(Middleware.ClaimsKey);
    if claims.None? {
      c.JSON(StatusUnauthorized, ErrorJson(AuthRequired));
      return 0, false;
    }
    if !(claims.value.ClaimsValue? && claims.value.claims.MapClaims?) {
      c.JSON(StatusUnauthorized, ErrorJson(InvalidToken));
      return 0, false;
    }
    var entries := claims.value.claims.entries;
    if "id" !in entries || !entries["id"].Number? {
      c.JSON(StatusUnauthorized, ErrorJson(UserIdNotFound));
      return 0, false;
    }
    return entries["id"].asUint, true;
  }

  method ValidateUserAccess(c: Context, paramUserId: string) returns (userId: UInt64, ok: bool)
    modifies c
    ensures var r := ValidateUserAccessReply(old(c.keys), paramUserId);
            && ok == r.Proceed? && userId == (if ok then r.value else 0)
            && c.Snapshot() == old(c.Snapshot()).AfterReply(r)
  {
    var tokenUserId, found := GetUserId(c);
    if !found {
      return 0, false;
    }
    var parsed := ParseUint64(paramUserId);
    if parsed.None? {
      c.JSON(StatusBadRequest, ErrorJson(InvalidUserId));
      return 0, false;
    }
    if tokenUserId != parsed.value {
      c.JSON(StatusForbidden, ErrorJson(AccessDenied));
      return 0, false;
    }
    return parsed.value, true;
  }

  /** getUserID's checks in order: missing claims, then non-map claims, then a missing or non-numeric "id". */
  lemma GetUserIdOrder(keys: map<string, Value>)
    ensures Middleware.ClaimsKey !in keys ==> GetUserIdReply(keys) == Unauthorized(AuthRequired)
    ensures Middleware.ClaimsKey in keys && !(keys[Middleware.ClaimsKey].ClaimsValue? && keys[Middleware.ClaimsKey].claims.MapClaims?)
            ==> GetUserIdReply(keys) == Unauthorized(InvalidToken)
    ensures Middleware.ClaimsKey in keys && keys[Middleware.ClaimsKey].ClaimsValue? && keys[Middleware.ClaimsKey].claims.MapClaims?
            && ("id" !in keys[Middleware.ClaimsKey].claims.entries || !keys[Middleware.ClaimsKey].claims.entries["id"].Number?)
            ==> GetUserIdReply(keys) == Unauthorized(UserIdNotFound)
  {
  }

  /**
   * getUserID and getUserIDFromToken succeed on exactly the same claims with the same id; on
   * failure they fail at the same check, each with its own message.
   */
  lemma UserIdVariantsAgree(keys: map<string, Value>)
    ensures GetUserIdReply(keys).Proceed? <==> GetUserIdFromToken(keys).Ok?
    ensures GetUserIdReply(keys).Proceed? ==> GetUserIdReply(keys).value == GetUserIdFromToken(keys).value
    ensures GetUserIdReply(keys) == Unauthorized(AuthRequired) <==> GetUserIdFromToken(keys) == Err(ClaimsNotFound)
    ensures GetUserIdReply(keys) == Unauthorized(InvalidToken) <==> GetUserIdFromToken(keys) == Err(ClaimsFormat)
    ensures GetUserIdReply(keys) == Unauthorized(UserIdNotFound) <==> GetUserIdFromToken(keys) == Err(UserIdMissing)
  {
    var r := GetUserIdReply(keys);
    if r.Respond? {
      // Different messages make different bodies: read the message back out of the body.
      assert r.response.body.fields["error"].s in {AuthRequired, InvalidToken, UserIdNotFound};
      assert AuthRequired[0] == 'A' && InvalidToken[0] == 'I' && UserIdNotFound[0] == 'U';
    }
    assert ClaimsNotFound[0] == 't' && ClaimsFormat[0] == 'i' && UserIdMissing[0] == 'u';
  }

  /** validateUserAccess's order: identity (401) before the parameter (400) before ownership (403). */
  lemma ValidateUserAccessOrder(keys: map<string, Value>, paramUserId: string)
    ensures GetUserIdReply(keys).Respond? ==>
              ValidateUserAccessReply(keys, paramUserId) == GetUserIdReply(keys)
    ensures GetUserIdReply(keys).Proceed? && ParseUint64(paramUserId).None? ==>
              ValidateUserAccessReply(keys, paramUserId) == Respond(Response(StatusBadRequest, ErrorJson(InvalidUserId)))
    ensures GetUserIdReply(keys).Proceed? && ParseUint64(paramUserId).Some?
            && GetUserIdReply(keys).value != ParseUint64(paramUserId).value ==>
              ValidateUserAccessReply(keys, paramUserId) == Respond(Response(StatusForbidden, ErrorJson(AccessDenied)))
  {
  }

  /** A user naming themself in canonical decimal is let through with their own id. */
  lemma OwnIdAdmitted(keys: map<string, Value>, id: UInt64)
    requires ClaimsIdentify(keys, id)
    ensures ValidateUserAccessReply(keys, FormatNat(id)) == Proceed(id)
  {
    ParseUint64Format(id);
  }

  /** parseIDParam reads back the decimal form of every value of its bit size (here 32). */
  lemma ParseIdParamRoundTrip(param: string, v: Int32)
    ensures ParseIdParamReply(param, FormatInt(v), 32) == Proceed(v)
  {
    ParseInt32Format(v);
  }
}

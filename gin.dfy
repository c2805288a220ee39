/**
 * The slice of the gin web framework the gateway touches: JSON bodies, the response writer, the
 * per-request key store, abort and continuation, body binding — and, beside them, the record of
 * the backend requests a handler sent while serving the request.
 *
 * A handler's behaviour is specified as a value: a Step<T> for a helper that either lets its
 * caller proceed with a T or writes a response, an Effect for a whole handler. The methods that
 * model the handlers change a Context, and their postconditions say the new state is the old one
 * with that value applied.
 */
module Gin {
  import opened Base
  import Jwt
  import Backend

  /** A JSON value as encoding/json writes a gin.H (a float64 is kept as a real, never computed with). */
  datatype Json =
    | JNull
    | JBool(b: bool)
    | JInt(i: int)
    | JFloat(f: real)
    | JStr(s: string)
    | JArr(elems: seq<Json>)
    | JObj(fields: map<string, Json>)

  /** One c.JSON(status, body) call. */
  datatype Response = Response(status: int, body: Json)

  const StatusOK: int := 200
  const StatusCreated: int := 201
  const StatusBadRequest: int := 400
  const StatusUnauthorized: int := 401
  const StatusForbidden: int := 403
  const StatusNotFound: int := 404
  const StatusInternalServerError: int := 500
  const StatusNotImplemented: int := 501

  /** gin.H{"error": msg} */
  function ErrorJson(msg: string): Json { JObj(map["error" := JStr(msg)]) }

  /** gin.H{"message": msg} */
  function MessageJson(msg: string): Json { JObj(map["message" := JStr(msg)]) }

  /** What the model stores under a context key with c.Set. */
  datatype Value = ClaimsValue(claims: Jwt.Claims) | StringValue(s: string)

  /** A helper's answer: carry on with a value, or the response it has written. */
  datatype Reply<T> = Proceed(value: T) | Respond(response: Response)

  /** A helper's whole behaviour: its answer, the backend requests it sent, whether it read the body. */
  datatype Step<T> = Step(reply: Reply<T>, sent: seq<Backend.Call>, readsBody: bool)
  {
    /** The responses the helper wrote: one when it stops its caller, none when it lets it proceed. */
    function Writes(): seq<Response>
    {
      if reply.Respond? then [reply.response] else []
    }
  }

  /** A handler's whole behaviour: the responses it wrote, the backend requests it sent, whether it read the body. */
  datatype Effect = Effect(writes: seq<Response>, sent: seq<Backend.Call>, readsBody: bool)

  /** The mutable part of a gin.Context, plus the backend requests sent while serving it. */
  datatype State = State(writes: seq<Response>, aborted: bool, keys: map<string, Value>,
                         bodyRead: bool, sent: seq<Backend.Call>, nextCalled: bool)
  {
    /** After a helper that neither reads the body nor calls a backend. */
    function AfterReply<T>(r: Reply<T>): State
    {
      if r.Respond? then this.(writes := writes + [r.response]) else this
    }

    function AfterStep<T>(s: Step<T>): State
    {
      this.(writes := writes + s.Writes(), sent := sent + s.sent, bodyRead := bodyRead || s.readsBody)
    }

    function AfterEffect(e: Effect): State
    {
      this.(writes := writes + e.writes, sent := sent + e.sent, bodyRead := bodyRead || e.readsBody)
    }
  }

  /**
   * gin.Context for one request. The request's Authorization header and path parameters never
   * change; everything a handler does to the context is in the variable fields.
   */
  class Context {
    const header: string
    const params: map<string, string>
    var writes: seq<Response>
    var aborted: bool
    var keys: map<string, Value>
    var bodyRead: bool
    var sent: seq<Backend.Call>
    var nextCalled: bool

    constructor (header: string, params: map<string, string>)
      ensures this.header == header && this.params == params
      ensures Snapshot() == State([], false, map[], false, [], false)
    {
      this.header := header;
      this.params := params;
      writes, aborted, keys, bodyRead, sent, nextCalled := [], false, map[], false, [], false;
    }

    function Snapshot(): State
      reads this
    {
      State(writes, aborted, keys, bodyRead, sent, nextCalled)
    }

    /** c.Param(name): the empty string for a parameter the route does not have. */
    function Param(name: string): string
    {
      if name in params then params[name] else ""
    }

    /** c.Get(key) */
    function Get(key: string): Option<Value>
      reads this
    {
      if key in keys then Some(keys[key]) else None
    }

    /** c.JSON(status, body) */
    method JSON(status: int, body: Json)
      modifies this
      ensures Snapshot() == old(Snapshot()).(writes := old(writes) + [Response(status, body)])
    {
      writes := writes + [Response(status, body)];
    }

    /** c.Abort(): no later handler in the chain runs. */
    method Abort()
      modifies this
      ensures Snapshot() == old(Snapshot()).(aborted := true)
    {
      aborted := true;
    }

    /** c.AbortWithStatusJSON(status, body) */
    method AbortWithStatusJSON(status: int, body: Json)
      modifies this
      ensures Snapshot() == old(Snapshot()).(writes := old(writes) + [Response(status, body)], aborted := true)
    {
      writes := writes + [Response(status, body)];
      aborted := true;
    }

    /** c.Set(key, value) */
    method Set(key: string, value: Value)
      modifies this
      ensures Snapshot() == old(Snapshot()).(keys := old(keys)[key := value])
    {
      keys := keys[key := value];
    }

    /** c.Next(): hands the request on to the rest of the chain. */
    method Next()
      modifies this
      ensures Snapshot() == old(Snapshot()).(nextCalled := true)
    {
      nextCalled := true;
    }

    /** c.ShouldBindJSON(&obj): reads the body; `parsed` is what decoding and validation make of it. */
    method ShouldBindJSON<T>(parsed: Outcome<T>) returns (r: Outcome<T>)
      modifies this
      ensures r == parsed
      ensures Snapshot() == old(Snapshot()).(bodyRead := true)
    {
      bodyRead := true;
      r := parsed;
    }

    /** Records one request sent to a backend service. */
    method Send(call: Backend.Call)
      modifies this
      ensures Snapshot() == old(Snapshot()).(sent := old(sent) + [call])
    {
      sent := sent + [call];
    }
  }
}

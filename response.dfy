/** `Response` (src/core/Response.ts): the builder of the API envelope,
    holding an HTTP status and an optional error with its traces. */
module Response {
  import opened Wrappers
  import Numify
  import Strify

  /** `ApiErrorTrace`. */
  datatype ApiErrorTrace = ApiErrorTrace(path: string, summary: string, code: string)

  /** `ApiBaseError`. */
  datatype ApiBaseError = ApiBaseError(message: string, code: string, traces: seq<ApiErrorTrace>)

  /** The `error` of an envelope: `null`, or a copy of `_error`; a copy of
      a null `_error` (`{ ...null }`) is the empty object, `Copy(None)`. */
  datatype EnvelopeError = NoError | Copy(of: Option<ApiBaseError>)

  /** `ApiBaseResponse`; `data` is `None` for `null`. */
  datatype Envelope<Data> = Envelope(error: EnvelopeError, data: Option<Data>)

  // `HttpStatus`
  const SUCCESS := 200
  const CREATED := 201
  const ERR_BAD_REQUEST := 400
  const ERR_UNAUTHORIZED := 401
  const FORBIDDEN := 403
  const ERR_NOT_FOUND := 404
  const ERR_INTERNAL := 500

  // `HttpMessage`
  const MSG_BAD_REQUEST := "Data invalid"
  const MSG_UNAUTHORIZED := "Unauthorized"
  const MSG_FORBIDDEN := "Forbidden Access"
  const MSG_NOT_FOUND := "URL Not Found"
  const MSG_INTERNAL := "Internal Server Error"

  // `HttpErrorCode`
  const CODE_BAD_REQUEST := "BAD_REQUEST"
  const CODE_UNAUTHORIZED := "UNAUTHORIZED"
  const CODE_FORBIDDEN := "FORBIDDEN"
  const CODE_NOT_FOUND := "NOT_FOUND"
  const CODE_INTERNAL := "INTERNAL"

  /** `Response.isSuccess(status)`: a 2xx or 3xx status. */
  function IsSuccess(status: int): (r: bool)
    ensures r <==> 200 <= status < 400
  {
    Numify.InRangeLeft(status, 200, 400)
  }

  /** The error `initError` leaves: the existing one, or an empty one. */
  function Initialized(error: Option<ApiBaseError>): (r: ApiBaseError)
    ensures error.Some? ==> r == error.value
    ensures error.None? ==> r.message == "" && r.code == "" && r.traces == []
  {
    if error.Some? then error.value else ApiBaseError("", "", [])
  }

  /** A `ZodIssue` as `parseError` reads it: `path` is `None` when it is
      not an array; its segments are given as their text. */
  datatype Issue = Issue(path: Option<seq<string>>, message: string, code: string)

  /** What `parseError` is given: an object with an `issues` array, or
      anything else, of which it reads `code` and `message` (`None` when
      absent or falsy). */
  datatype ParseErrorInput = Issues(issues: seq<Issue>) | Other(code: Option<string>, message: Option<string>)

  /** `issues.map(...)`: one trace per issue, its path joined with ".". */
  function IssueTraces(issues: seq<Issue>): (r: seq<ApiErrorTrace>)
    ensures |r| == |issues|
    ensures forall k :: 0 <= k < |issues| ==>
      r[k] == ApiErrorTrace(Strify.JoinWith(if issues[k].path.Some? then issues[k].path.value else [], "."), issues[k].message, issues[k].code)
  {
    if |issues| == 0 then []
    else
      var i := issues[0];
      [ApiErrorTrace(Strify.JoinWith(if i.path.Some? then i.path.value else [], "."), i.message, i.code)] + IssueTraces(issues[1..])
  }

  /** `error?.x || ""`. */
  function OrEmpty(v: Option<string>): string
  {
    if v.Some? then v.value else ""
  }

  class Response<Data> {
    var status: int
    var error: Option<ApiBaseError>

    /** `new Response(res)`: status `ERR_INTERNAL`, no error. */
    constructor()
      ensures status == ERR_INTERNAL && error == None
    {
      status := ERR_INTERNAL;
      error := None;
    }

    /** `get(data)`: no error on success, otherwise a copy of the error. */
    function Get(data: Option<Data>): (r: Envelope<Data>)
      reads this
      ensures r.error == NoError <==> IsSuccess(status)
      ensures !IsSuccess(status) ==> r.error == Copy(error)
      ensures r.data == data
    {
      Envelope(if IsSuccess(status) then NoError else Copy(error), data)
    }

    /** `initError()`: an empty error when there is none. */
    method InitError()
      modifies this
      ensures error == Some(Initialized(old(error)))
      ensures status == old(status)
    {
      if error.None? {
        error := Some(ApiBaseError("", "", []));
      }
    }

    /** `error(e)`. */
    method Error(e: ApiBaseError)
      modifies this
      ensures error == Some(e) && status == old(status)
    {
      error := Some(e);
    }

    /** `trace(t)`: appends one trace to the (initialised) error. */
    method Trace(t: ApiErrorTrace)
      modifies this
      ensures var e := Initialized(old(error)); error == Some(e.(traces := e.traces + [t]))
      ensures status == old(status)
    {
      InitError();
      var e := error.value;
      error := Some(e.(traces := e.traces + [t]));
    }

    /** `status(s)`. */
    method Status(s: int)
      modifies this
      ensures status == s && error == old(error)
    {
      status := s;
    }

    /** `message(msg)`: changes only the message of the (initialised) error. */
    method Message(msg: string)
      modifies this
      ensures error == Some(Initialized(old(error)).(message := msg))
      ensures status == old(status)
    {
      InitError();
      error := Some(error.value.(message := msg));
    }

    /** `code(c)`: changes only the code of the (initialised) error. */
    method Code(c: string)
      modifies this
      ensures error == Some(Initialized(old(error)).(code := c))
      ensures status == old(status)
    {
      InitError();
      error := Some(error.value.(code := c));
    }

    /** `notFound(message = ERR_NOT_FOUND)`. */
    method NotFound(message: Option<string>)
      modifies this
      ensures status == ERR_NOT_FOUND
      ensures error == Some(ApiBaseError(if message.Some? then message.value else MSG_NOT_FOUND, CODE_NOT_FOUND, []))
    {
      Status(ERR_NOT_FOUND);
      Error(ApiBaseError(if message.Some? then message.value else MSG_NOT_FOUND, CODE_NOT_FOUND, []));
    }

    /** `badRequest(traces = [])`. */
    method BadRequest(traces: seq<ApiErrorTrace>)
      modifies this
      ensures status == ERR_BAD_REQUEST
      ensures error == Some(ApiBaseError(MSG_BAD_REQUEST, CODE_BAD_REQUEST, traces))
    {
      Status(ERR_BAD_REQUEST);
      Error(ApiBaseError(MSG_BAD_REQUEST, CODE_BAD_REQUEST, traces));
    }

    /** `internal(message = ERR_INTERNAL)`: keeps the traces already there. */
    method Internal(message: Option<string>)
      modifies this
      ensures status == ERR_INTERNAL
      ensures error == Some(ApiBaseError(if message.Some? then message.value else MSG_INTERNAL, CODE_INTERNAL,
        if old(error).Some? then old(error).value.traces else []))
    {
      var traces := if error.Some? then error.value.traces else [];
      Status(ERR_INTERNAL);
      Error(ApiBaseError(if message.Some? then message.value else MSG_INTERNAL, CODE_INTERNAL, traces));
    }

    /** `forbidden(traces = [])`. */
    method Forbidden(traces: seq<ApiErrorTrace>)
      modifies this
      ensures status == FORBIDDEN
      ensures error == Some(ApiBaseError(MSG_FORBIDDEN, CODE_FORBIDDEN, traces))
    {
      Status(FORBIDDEN);
      Error(ApiBaseError(MSG_FORBIDDEN, CODE_FORBIDDEN, traces));
    }

    /** `unauthorized(traces = [])`. */
    method Unauthorized(traces: seq<ApiErrorTrace>)
      modifies this
      ensures status == ERR_UNAUTHORIZED
      ensures error == Some(ApiBaseError(MSG_UNAUTHORIZED, CODE_UNAUTHORIZED, traces))
    {
      Status(ERR_UNAUTHORIZED);
      Error(ApiBaseError(MSG_UNAUTHORIZED, CODE_UNAUTHORIZED, traces));
    }

    /** `parseError(error)`: a validation failure becomes a bad request
        with one trace per issue; anything else adds one trace and becomes
        an internal error that keeps the earlier traces. */
    method ParseError(input: ParseErrorInput) returns (r: Envelope<Data>)
      modifies this
      ensures input.Issues? ==> (status == ERR_BAD_REQUEST &&
        error == Some(ApiBaseError(MSG_BAD_REQUEST, CODE_BAD_REQUEST, IssueTraces(input.issues))))
      ensures input.Other? ==> (status == ERR_INTERNAL &&
        error == Some(ApiBaseError(MSG_INTERNAL, CODE_INTERNAL,
          Initialized(old(error)).traces + [ApiErrorTrace("", OrEmpty(input.message), OrEmpty(input.code))])))
      ensures r == Envelope(Copy(error), None)
    {
      match input {
        case Issues(issues) =>
          BadRequest(IssueTraces(issues));
        case Other(code, message) =>
          Trace(ApiErrorTrace("", OrEmpty(message), OrEmpty(code)));
          Internal(None);
      }
      r := End(None);
    }

    /** `success(data)`. */
    method Success(data: Option<Data>) returns (r: Envelope<Data>)
      modifies this
      ensures status == SUCCESS && error == old(error)
      ensures r == Envelope(NoError, data)
    {
      Status(SUCCESS);
      r := End(data);
    }

    /** `created(data)`. */
    method Created(data: Option<Data>) returns (r: Envelope<Data>)
      modifies this
      ensures status == CREATED && error == old(error)
      ensures r == Envelope(NoError, data)
    {
      Status(CREATED);
      r := End(data);
    }

    /** `end(data)`: the envelope `get(data)` sent with the status. */
    method End(data: Option<Data>) returns (r: Envelope<Data>)
      ensures r == Get(data)
    {
      r := Get(data);
    }
  }
}

/** The request-scoped servlet state that the admin access gate and the admin
    audit wrapper read and write: the request with its mutable attribute map,
    the response status, and the application log as a sequence of events.
    Java's `long`, its casts out of `Object`, and the exceptions those casts
    throw are written out explicitly. */
module Servlet {
  import opened Wrappers

  const MinLong: int := -0x8000_0000_0000_0000
  const MaxLong: int := 0x7fff_ffff_ffff_ffff
  const LongModulus: int := 0x1_0000_0000_0000_0000

  /** Java's 64-bit `long`. */
  type Long = x: int | MinLong <= x <= MaxLong

  /** Two's-complement wrap-around of a mathematical integer into the `long` range,
      as Java's `long` arithmetic does on overflow. */
  function WrapLong(x: int): (r: Long)
    ensures (r - x) % LongModulus == 0
    ensures MinLong <= x <= MaxLong ==> r == x
  {
    (x - MinLong) % LongModulus + MinLong
  }

  /** The application's role enumeration (`org.example.expert.domain.user.enums.UserRole`). */
  datatype UserRole = Admin | User

  /** The exceptions the modelled code can raise, plus an opaque one standing for
      whatever a controller method throws. */
  datatype Exception =
    | ClassCastException
    | NullPointerException
    | ApplicationException(code: nat)

  /** The result of a Java call: a returned value or a thrown exception. */
  datatype Outcome<+T> = Returned(value: T) | Threw(exception: Exception)

  /** A value stored in the request's attribute map (an `Object` in Java). */
  datatype Value =
    | LongValue(n: Long)
    | RoleValue(role: UserRole)
    | OtherValue(description: string)

  const UserIdAttribute: string := "userId"
  const UserRoleAttribute: string := "userRole"
  const StartTimeAttribute: string := "startTime"

  /** `(Long) request.getAttribute(name)`: null when absent, the number when the
      attribute holds a `Long`, a `ClassCastException` otherwise. */
  function LongAttribute(attributes: map<string, Value>, name: string): (r: Outcome<Option<Long>>)
    ensures r == Returned(None) <==> name !in attributes
    ensures r.Returned? && r.value.Some? <==> name in attributes && attributes[name].LongValue?
    ensures r.Returned? && r.value.Some? ==> attributes[name] == LongValue(r.value.value)
    ensures r.Threw? ==> r.exception == ClassCastException
  {
    if name !in attributes then Returned(None)
    else match attributes[name]
      case LongValue(n) => Returned(Some(n))
      case _ => Threw(ClassCastException)
  }

  /** `(UserRole) request.getAttribute(name)`, with the same three outcomes. */
  function RoleAttribute(attributes: map<string, Value>, name: string): (r: Outcome<Option<UserRole>>)
    ensures r == Returned(None) <==> name !in attributes
    ensures r.Returned? && r.value.Some? <==> name in attributes && attributes[name].RoleValue?
    ensures r.Returned? && r.value.Some? ==> attributes[name] == RoleValue(r.value.value)
    ensures r.Threw? ==> r.exception == ClassCastException
  {
    if name !in attributes then Returned(None)
    else match attributes[name]
      case RoleValue(role) => Returned(Some(role))
      case _ => Threw(ClassCastException)
  }

  /** An HTTP request: its method, URI and URL are fixed; its attribute map is the
      mutable request-scoped bag that filters and interceptors write into. */
  class Request {
    const httpMethod: string
    const requestUri: string
    const requestUrl: string
    var attributes: map<string, Value>

    constructor (httpMethod: string, requestUri: string, requestUrl: string, attributes: map<string, Value>)
      ensures this.httpMethod == httpMethod && this.requestUri == requestUri
      ensures this.requestUrl == requestUrl && this.attributes == attributes
    {
      this.httpMethod := httpMethod;
      this.requestUri := requestUri;
      this.requestUrl := requestUrl;
      this.attributes := attributes;
    }

    /** `request.setAttribute(name, value)`. */
    method SetAttribute(name: string, value: Value)
      modifies this
      ensures attributes == old(attributes)[name := value]
    {
      attributes := attributes[name := value];
    }
  }

  const SC_OK: int := 200
  const SC_UNAUTHORIZED: int := 401

  /** An HTTP response: its status and the message of an error sent on it. */
  class Response {
    var status: int
    var errorMessage: Option<string>

    constructor ()
      ensures status == SC_OK && errorMessage == None
    {
      status := SC_OK;
      errorMessage := None;
    }

    /** `response.sendError(sc, msg)`. */
    method SendError(sc: int, msg: string)
      modifies this
      ensures status == sc && errorMessage == Some(msg)
    {
      status := sc;
      errorMessage := Some(msg);
    }

    /** What the handler does to the response between the two interceptor callbacks. */
    method SetStatus(sc: int)
      modifies this
      ensures status == sc && errorMessage == old(errorMessage)
    {
      status := sc;
    }
  }

  datatype Level = Info | Warn

  /** One line of the application log, with the placeholders of its format filled in. */
  datatype LogEvent =
      /** "잘못된 접근 시도 userId:{}, userRole:{}" */
    | AccessDenied(userId: Option<Long>, userRole: Option<UserRole>)
      /** "[REQUEST] {} {} | URL: {}" */
    | RequestStarted(httpMethod: string, uri: string, url: string)
      /** "[RESPONSE] {} {} | Status: {} | Time: {}ms" */
    | RequestCompleted(httpMethod: string, uri: string, status: int, durationMs: Long)
      /** "ADMIN API REQUEST: userId={}, time={}, method={}, url={}, body={}" */
    | AdminApiRequest(userId: Option<Long>, time: int, httpMethod: string, uri: string, body: string)
      /** "ADMIN API RESPONSE: userId={}, url={}, response={}" */
    | AdminApiResponse(userId: Option<Long>, uri: string, response: string)
  {
    function Level(): Level {
      if AccessDenied? then Warn else Info
    }
  }

  /** The log sink: an append-only sequence of events. */
  class Logger {
    var events: seq<LogEvent>

    constructor ()
      ensures events == []
    {
      events := [];
    }

    method Log(e: LogEvent)
      modifies this
      ensures events == old(events) + [e]
    {
      events := events + [e];
    }
  }
}

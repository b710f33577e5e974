/** The admin audit wrapper (`MyLoggingAspectHandler`): around every admin
    controller method it logs the caller, the request and its body, proceeds with
    the method exactly once, logs the response, and returns the result unchanged.
    The JSON serialiser is a partial function, the advised method a supplied
    outcome, and the wall clock an input. */
module AuditLogger {
  import opened Wrappers
  import opened Servlet

  /** A Java object reference as the wrapper sees it: null or some opaque object. */
  datatype Obj = Null | Ref(id: nat)

  /** The type of a parameter annotation (`annotation.annotationType()`). */
  datatype AnnotationType =
    | RequestBody
    | PathVariable
    | RequestParam
    | Valid
    | OtherAnnotation(name: string)

  const CouldNotSerialize: string := "could not serialize object"

  /** `objectMapper.writeValueAsString`: `None` stands for the exception it throws. */
  type Serializer = Obj -> Option<string>

  /** `toJson`: never fails; the serialiser's text, or the fixed placeholder when
      the serialiser throws. */
  function ToJson(serialize: Serializer, obj: Obj): (json: string)
    ensures serialize(obj).Some? ==> json == serialize(obj).value
    ensures serialize(obj).None? ==> json == CouldNotSerialize
  {
    match serialize(obj)
    case Some(text) => text
    case None => CouldNotSerialize
  }

  /** The index of the first parameter annotated `@RequestBody`, if any. */
  function FirstRequestBodyIndex(parameterAnnotations: seq<seq<AnnotationType>>): (r: Option<nat>)
    ensures r.Some? ==>
      && r.value < |parameterAnnotations|
      && RequestBody in parameterAnnotations[r.value]
      && forall j :: 0 <= j < r.value ==> RequestBody !in parameterAnnotations[j]
    ensures r.None? ==> forall j :: 0 <= j < |parameterAnnotations| ==> RequestBody !in parameterAnnotations[j]
  {
    if parameterAnnotations == [] then None
    else if RequestBody in parameterAnnotations[0] then Some(0)
    else match FirstRequestBodyIndex(parameterAnnotations[1..])
      case None => None
      case Some(i) => Some(i + 1)
  }

  /** The argument bound to the first `@RequestBody` parameter, or null. */
  function RequestBodyOf(parameterAnnotations: seq<seq<AnnotationType>>, args: seq<Obj>): (body: Obj)
    requires |parameterAnnotations| == |args|
  {
    match FirstRequestBodyIndex(parameterAnnotations)
    case Some(i) => args[i]
    case None => Null
  }

  /** The two cases of `RequestBodyOf`, stated without the index function. */
  lemma RequestBodyOfCases(parameterAnnotations: seq<seq<AnnotationType>>, args: seq<Obj>, i: nat)
    requires |parameterAnnotations| == |args|
    ensures i < |args| && RequestBody in parameterAnnotations[i] &&
            (forall j :: 0 <= j < i ==> RequestBody !in parameterAnnotations[j]) ==>
            RequestBodyOf(parameterAnnotations, args) == args[i]
    ensures (forall j :: 0 <= j < |args| ==> RequestBody !in parameterAnnotations[j]) ==>
            RequestBodyOf(parameterAnnotations, args) == Null
  {
  }

  /** `extractRequestBody`: scans the parameters in order and, within each, its
      annotations, returning the argument of the first `@RequestBody` parameter;
      null when there is none (in particular when there are no parameters). */
  method ExtractRequestBody(parameterAnnotations: array<seq<AnnotationType>>, args: array<Obj>) returns (body: Obj)
    requires parameterAnnotations.Length == args.Length
    ensures body == RequestBodyOf(parameterAnnotations[..], args[..])
  {
    var i := 0;
    while i < parameterAnnotations.Length
      invariant 0 <= i <= parameterAnnotations.Length
      invariant forall j :: 0 <= j < i ==> RequestBody !in parameterAnnotations[j]
    {
      var annotations := parameterAnnotations[i];
      var k := 0;
      while k < |annotations|
        invariant 0 <= k <= |annotations|
        invariant forall m :: 0 <= m < k ==> annotations[m] != RequestBody
      {
        if annotations[k] == RequestBody {
          RequestBodyOfCases(parameterAnnotations[..], args[..], i);
          return args[i];
        }
        k := k + 1;
      }
      i := i + 1;
    }
    RequestBodyOfCases(parameterAnnotations[..], args[..], 0);
    return Null;
  }

  /** The intercepted call of an admin controller method: its parameters'
      annotations, its arguments, and what running it yields. `proceedCalls`
      records, for every call of `Proceed`, how many log events preceded it. */
  class JoinPoint {
    const parameterAnnotations: array<seq<AnnotationType>>
    const args: array<Obj>
    const advised: Outcome<Obj>
    var proceedCalls: seq<nat>

    constructor (parameterAnnotations: array<seq<AnnotationType>>, args: array<Obj>, advised: Outcome<Obj>)
      ensures this.parameterAnnotations == parameterAnnotations && this.args == args
      ensures this.advised == advised && proceedCalls == []
    {
      this.parameterAnnotations := parameterAnnotations;
      this.args := args;
      this.advised := advised;
      proceedCalls := [];
    }

    /** `joinPoint.proceed()`: runs the controller method. */
    method Proceed(log: Logger) returns (outcome: Outcome<Obj>)
      modifies this
      ensures outcome == advised
      ensures proceedCalls == old(proceedCalls) + [|log.events|]
    {
      proceedCalls := proceedCalls + [|log.events|];
      outcome := advised;
    }
  }

  /** `logAdminApi`: reads the URI, method and user id once; logs the REQUEST entry
      with the serialised request body; proceeds exactly once, right after that
      entry; on normal return logs the RESPONSE entry with the same user id and URI
      and returns the result unchanged; a thrown exception passes through with no
      RESPONSE entry. A `userId` attribute that is not a `Long` fails the cast
      before anything is logged or run. */
  method LogAdminApi(request: Request, joinPoint: JoinPoint, log: Logger, serialize: Serializer, now: int)
    returns (outcome: Outcome<Obj>)
    requires joinPoint.parameterAnnotations.Length == joinPoint.args.Length
    modifies joinPoint, log
    ensures LongAttribute(request.attributes, UserIdAttribute).Threw? ==>
      && outcome == Threw(ClassCastException)
      && log.events == old(log.events)
      && joinPoint.proceedCalls == old(joinPoint.proceedCalls)
    ensures LongAttribute(request.attributes, UserIdAttribute).Returned? ==>
      var userId := LongAttribute(request.attributes, UserIdAttribute).value;
      var body := RequestBodyOf(joinPoint.parameterAnnotations[..], joinPoint.args[..]);
      && outcome == joinPoint.advised
      && joinPoint.proceedCalls == old(joinPoint.proceedCalls) + [|old(log.events)| + 1]
      && log.events == old(log.events)
           + [AdminApiRequest(userId, now, request.httpMethod, request.requestUri, ToJson(serialize, body))]
           + (if outcome.Returned?
              then [AdminApiResponse(userId, request.requestUri, ToJson(serialize, outcome.value))]
              else [])
  {
    var requestUri := request.requestUri;
    var httpMethod := request.httpMethod;
    var userId := LongAttribute(request.attributes, UserIdAttribute);
    if userId.Threw? {
      return Threw(userId.exception);
    }
    var requestTime := now;
    var requestBody := ExtractRequestBody(joinPoint.parameterAnnotations, joinPoint.args);

    log.Log(AdminApiRequest(userId.value, requestTime, httpMethod, requestUri, ToJson(serialize, requestBody)));
    var response := joinPoint.Proceed(log);
    if response.Threw? {
      return response;
    }
    log.Log(AdminApiResponse(userId.value, requestUri, ToJson(serialize, response.value)));
    return response;
  }

  /** The admitted request `DELETE /admin/users/42` by user 7: its only parameter
      is a path variable, so the REQUEST entry carries the serialisation of null,
      and the RESPONSE entry the serialised deletion result. */
  method DeleteUserScenario() returns (outcome: Outcome<Obj>, events: seq<LogEvent>)
    ensures outcome == Returned(Ref(1))
    ensures events == [AdminApiRequest(Some(7), 0, "DELETE", "/admin/users/42", "null"),
                       AdminApiResponse(Some(7), "/admin/users/42", "{}")]
  {
    var identity := map[UserIdAttribute := LongValue(7), UserRoleAttribute := RoleValue(Admin)];
    var request := new Request("DELETE", "/admin/users/42", "http://localhost:8080/admin/users/42", identity);
    var annotations := new seq<AnnotationType>[1] [[PathVariable]];
    var args := new Obj[1] [Ref(42)];
    var joinPoint := new JoinPoint(annotations, args, Returned(Ref(1)));
    var log := new Logger();
    var serialize: Serializer := (o: Obj) => match o case Null => Some("null") case Ref(_) => Some("{}");
    RequestBodyOfCases(annotations[..], args[..], 0);
    outcome := LogAdminApi(request, joinPoint, log, serialize, 0);
    events := log.events;
  }
}

/** The admin access gate (`MyInterceptorHandler`): a request interceptor that
    lets through only requests carrying a user id and the ADMIN role, records the
    time a request was admitted in the request's attributes, and logs the
    request's duration when it completes. The clock is an input. */
module AccessGate {
  import opened Wrappers
  import opened Servlet

  const AdminOnlyMessage: string := "어드민만 접근 가능합니다"

  /** What `preHandle` decides from the two identity attributes. */
  datatype Decision =
    | Admit
    | Deny(userId: Option<Long>, userRole: Option<UserRole>)
    | Abort(exception: Exception)

  /** Reads `userId` then `userRole` (either cast can fail) and admits only a
      present user id together with the ADMIN role. */
  function Decide(attributes: map<string, Value>): (d: Decision)
    ensures d.Admit? <==>
      && UserIdAttribute in attributes && attributes[UserIdAttribute].LongValue?
      && UserRoleAttribute in attributes && attributes[UserRoleAttribute] == RoleValue(Admin)
    ensures d.Abort? <==>
      || (UserIdAttribute in attributes && !attributes[UserIdAttribute].LongValue?)
      || (UserRoleAttribute in attributes && !attributes[UserRoleAttribute].RoleValue?)
    ensures d.Abort? ==> d.exception == ClassCastException
    ensures d.Deny? ==>
      && (d.userId.None? <==> UserIdAttribute !in attributes)
      && (d.userId.Some? ==> attributes[UserIdAttribute] == LongValue(d.userId.value))
      && (d.userRole.None? <==> UserRoleAttribute !in attributes)
      && (d.userRole.Some? ==> attributes[UserRoleAttribute] == RoleValue(d.userRole.value))
  {
    match LongAttribute(attributes, UserIdAttribute)
    case Threw(e) => Abort(e)
    case Returned(userId) =>
      match RoleAttribute(attributes, UserRoleAttribute)
      case Threw(e) => Abort(e)
      case Returned(userRole) =>
        if userId.None? || userRole != Some(Admin) then Deny(userId, userRole) else Admit
  }

  /** `endTime - startTime` in Java `long` arithmetic. */
  function Duration(startTime: Long, endTime: Long): (d: Long)
    ensures (d - (endTime - startTime)) % LongModulus == 0
    ensures 0 <= startTime && 0 <= endTime ==> d == endTime - startTime
    ensures 0 <= startTime <= endTime ==> d >= 0
  {
    WrapLong(endTime - startTime)
  }

  /** `(long) request.getAttribute("startTime")`: unboxing a missing attribute
      throws `NullPointerException`, a non-`Long` one `ClassCastException`. */
  function StartTime(attributes: map<string, Value>): (r: Outcome<Long>)
    ensures r.Returned? <==> StartTimeAttribute in attributes && attributes[StartTimeAttribute].LongValue?
    ensures r.Returned? ==> attributes[StartTimeAttribute] == LongValue(r.value)
    ensures StartTimeAttribute !in attributes ==> r == Threw(NullPointerException)
    ensures StartTimeAttribute in attributes && !attributes[StartTimeAttribute].LongValue? ==>
      r == Threw(ClassCastException)
  {
    match LongAttribute(attributes, StartTimeAttribute)
    case Threw(e) => Threw(e)
    case Returned(None) => Threw(NullPointerException)
    case Returned(Some(t)) => Returned(t)
  }

  /** `preHandle`: on denial sends 401 and logs one warning; on admission records
      `startTime := now` and logs the request; the only attribute it ever writes
      is `startTime`. */
  method PreHandle(request: Request, response: Response, log: Logger, now: Long) returns (outcome: Outcome<bool>)
    modifies request, response, log
    ensures var d := Decide(old(request.attributes));
      && (outcome == Returned(true) <==> d.Admit?)
      && (outcome == Returned(false) <==> d.Deny?)
      && (outcome.Threw? <==> d.Abort?)
    ensures request.attributes - {StartTimeAttribute} == old(request.attributes) - {StartTimeAttribute}
    ensures Decide(old(request.attributes)).Abort? ==>
      && outcome == Threw(Decide(old(request.attributes)).exception)
      && unchanged(request, response, log)
    ensures Decide(old(request.attributes)).Deny? ==>
      && response.status == SC_UNAUTHORIZED
      && response.errorMessage == Some(AdminOnlyMessage)
      && log.events == old(log.events) + [AccessDenied(Decide(old(request.attributes)).userId,
                                                       Decide(old(request.attributes)).userRole)]
      && unchanged(request)
    ensures Decide(old(request.attributes)).Admit? ==>
      && request.attributes == old(request.attributes)[StartTimeAttribute := LongValue(now)]
      && log.events == old(log.events) + [RequestStarted(request.httpMethod, request.requestUri, request.requestUrl)]
      && unchanged(response)
  {
    var userId := LongAttribute(request.attributes, UserIdAttribute);
    if userId.Threw? {
      return Threw(userId.exception);
    }
    var userRole := RoleAttribute(request.attributes, UserRoleAttribute);
    if userRole.Threw? {
      return Threw(userRole.exception);
    }

    if userId.value.None? || userRole.value != Some(Admin) {
      log.Log(AccessDenied(userId.value, userRole.value));
      response.SendError(SC_UNAUTHORIZED, AdminOnlyMessage);
      return Returned(false);
    }

    request.SetAttribute(StartTimeAttribute, LongValue(now));
    log.Log(RequestStarted(request.httpMethod, request.requestUri, request.requestUrl));
    return Returned(true);
  }

  /** `afterCompletion`: reads `startTime` back and logs the method, the URI, the
      current status and `now - startTime`; it changes nothing else. */
  method AfterCompletion(request: Request, response: Response, log: Logger, now: Long) returns (outcome: Outcome<()>)
    modifies log
    ensures StartTime(request.attributes).Threw? ==>
      outcome == Threw(StartTime(request.attributes).exception) && log.events == old(log.events)
    ensures StartTime(request.attributes).Returned? ==>
      && outcome == Returned(())
      && log.events == old(log.events) + [RequestCompleted(request.httpMethod, request.requestUri, response.status,
                                                           Duration(StartTime(request.attributes).value, now))]
  {
    var startTime := StartTime(request.attributes);
    if startTime.Threw? {
      return Threw(startTime.exception);
    }
    var endTime := now;
    var duration := Duration(startTime.value, endTime);
    log.Log(RequestCompleted(request.httpMethod, request.requestUri, response.status, duration));
    return Returned(());
  }

  /** The order in which the dispatcher drives the two callbacks: `afterCompletion`
      runs only after `preHandle` returned true, and in between the handler sets
      the response status. An admitted request is logged twice, the second time
      with the difference of the two clock readings. */
  method PreHandleThenAfterCompletion(request: Request, response: Response, log: Logger,
                                      arrival: Long, handlerStatus: int, completion: Long)
    returns (admitted: bool)
    modifies request, response, log
    ensures admitted <==> Decide(old(request.attributes)).Admit?
    ensures admitted ==>
      && response.status == handlerStatus
      && log.events == old(log.events) + [
           RequestStarted(request.httpMethod, request.requestUri, request.requestUrl),
           RequestCompleted(request.httpMethod, request.requestUri, handlerStatus, Duration(arrival, completion))]
    ensures admitted && 0 <= arrival && 0 <= completion ==>
      log.events[|log.events| - 1].durationMs == completion - arrival
    ensures admitted && 0 <= arrival <= completion ==>
      log.events[|log.events| - 1].durationMs >= 0
    ensures Decide(old(request.attributes)).Deny? ==>
      && response.status == SC_UNAUTHORIZED
      && |log.events| == |old(log.events)| + 1
      && log.events[|log.events| - 1].Level() == Warn
  {
    var pre := PreHandle(request, response, log, arrival);
    admitted := pre == Returned(true);
    if admitted {
      response.SetStatus(handlerStatus);
      var post := AfterCompletion(request, response, log, completion);
    }
  }

  /** The rejected request `GET /admin/comments/5` with neither identity attribute:
      status 401 and a single warning naming both as null. */
  method AnonymousRequestScenario() returns (outcome: Outcome<bool>, status: int, events: seq<LogEvent>)
    ensures outcome == Returned(false)
    ensures status == SC_UNAUTHORIZED
    ensures events == [AccessDenied(None, None)]
  {
    var request := new Request("GET", "/admin/comments/5", "http://localhost:8080/admin/comments/5", map[]);
    var response := new Response();
    var log := new Logger();
    outcome := PreHandle(request, response, log, 1000);
    status := response.status;
    events := log.events;
  }

  /** A role other than ADMIN is rejected even with a user id present, and
      nothing is written into the request. */
  method NonAdminScenario() returns (outcome: Outcome<bool>, status: int, attributes: map<string, Value>)
    ensures outcome == Returned(false)
    ensures status == SC_UNAUTHORIZED
    ensures StartTimeAttribute !in attributes
  {
    var identity := map[UserIdAttribute := LongValue(7), UserRoleAttribute := RoleValue(User)];
    var request := new Request("DELETE", "/admin/users/42", "http://localhost:8080/admin/users/42", identity);
    var response := new Response();
    var log := new Logger();
    outcome := PreHandle(request, response, log, 1000);
    status := response.status;
    attributes := request.attributes;
  }
}

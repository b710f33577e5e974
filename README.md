# Admin access gate, admin audit wrapper and signup validation

A Dafny model of the three pieces of the Spring Boot todo backend that carry
behaviour of their own:

- **The admin access gate** (`MyInterceptorHandler`, module `AccessGate`). The
  interceptor runs before every request to the admin routes. It reads the
  `userId` and `userRole` attributes that authentication attached to the request.
  It lets the request through only when a user id is present and the role is
  `ADMIN`. A rejected request gets status 401 with the message
  "어드민만 접근 가능합니다" and one warning in the log. An admitted request gets its
  admission time stored in the `startTime` attribute and one `[REQUEST]` log line.
  When the request completes, `afterCompletion` reads `startTime` back and logs the
  status and `now - startTime` in milliseconds.
- **The admin audit wrapper** (`MyLoggingAspectHandler`, module `AuditLogger`).
  Around every admin controller method it reads the URI, the HTTP method and the
  user id. It then finds the argument of the first `@RequestBody` parameter and
  logs it serialised to JSON. It runs the method exactly once and logs the
  serialised result, which it returns unchanged. When serialisation fails, the
  placeholder "could not serialize object" is logged instead. When the method
  throws, the exception passes through and no response line is logged.
- **Signup validation** (`SignupRequest`, module `Signup`). The annotations on the
  signup body define a validator. All three fields must be non-blank. The email
  must be an email address. The password must have at least 8 characters and must
  match `^(?=.*[A-Z])(?=.*\d).+$`.

Module `Servlet` holds what both logging components share. It models the request
with its mutable attribute map, the response status, and the log as a sequence of
events. It also writes out Java's `long` arithmetic and the casts out of
`Object`, with the exceptions those casts throw.

Inputs stand in for what the model cannot see. The clock is a parameter
(`now`, `arrival`, `completion`). The JSON serialiser is a partial function
`Obj -> Option<string>`; `None` means it threw. The controller method behind
`proceed` is an outcome fixed when the join point is built. The email syntax check
is a predicate parameter `isEmail`.

Three points where the model keeps the code's behaviour as written:

- `afterCompletion` does not check that `startTime` is present. A missing attribute
  throws `NullPointerException` on unboxing, and the model says so
  (`AccessGate.StartTime`).
- An absent request body is passed to the serialiser as `null`. There is no
  separate placeholder for it.
- Each identity cast can throw `ClassCastException` before the admission check.

## Model

| member | source | states |
|---|---|---|
| Servlet.WrapLong | src/main/java/org/example/expert/logging/MyInterceptorHandler.java:41 | `long` arithmetic: the result is congruent to the exact value modulo 2^64 and equals it whenever it fits in a `long` |
| Servlet.LongAttribute | src/main/java/org/example/expert/logging/MyInterceptorHandler.java:19 | `(Long) getAttribute`: null exactly when absent, the stored number exactly when it is a `Long`, otherwise `ClassCastException` |
| Servlet.RoleAttribute | src/main/java/org/example/expert/logging/MyInterceptorHandler.java:20 | `(UserRole) getAttribute`: null exactly when absent, the stored role exactly when it is a role, otherwise `ClassCastException` |
| Servlet.Request.SetAttribute | src/main/java/org/example/expert/logging/MyInterceptorHandler.java:28 | writing an attribute overwrites that one key of the map and no other |
| Servlet.Response.SendError | src/main/java/org/example/expert/logging/MyInterceptorHandler.java:24 | `sendError` sets the status and the error message |
| Servlet.Logger.Log | src/main/java/org/example/expert/logging/MyInterceptorHandler.java:23 | a log call appends exactly one event at the end of the log |
| AccessGate.Decide | src/main/java/org/example/expert/logging/MyInterceptorHandler.java:19-22 | admits iff `userId` holds a `Long` and `userRole` holds `ADMIN`; aborts iff one of the casts fails; a denial carries the identity values it read, null exactly for an absent attribute |
| AccessGate.StartTime | src/main/java/org/example/expert/logging/MyInterceptorHandler.java:39 | the stored start time when it is a `Long`; `NullPointerException` when absent, `ClassCastException` when of another type |
| AccessGate.Duration | src/main/java/org/example/expert/logging/MyInterceptorHandler.java:40-41 | equals `end - start` modulo 2^64; equals it exactly for non-negative clock readings, and is non-negative when the clock has not gone backwards |
| AccessGate.PreHandle | src/main/java/org/example/expert/logging/MyInterceptorHandler.java:17-33 | returns true iff admitted and false iff denied; on denial status 401 with the fixed message, one warning with the identity, attributes untouched; on admission `startTime := now`, one `[REQUEST]` event, response untouched; no attribute other than `startTime` ever changes |
| AccessGate.AfterCompletion | src/main/java/org/example/expert/logging/MyInterceptorHandler.java:37-46 | appends one `[RESPONSE]` event with method, URI, current status and `Duration(startTime, now)`; throws with nothing logged when `startTime` is absent or mistyped; changes neither attributes nor response |
| AccessGate.PreHandleThenAfterCompletion | src/main/java/org/example/expert/logging/MyInterceptorHandler.java:28-44 | an admitted request logs exactly `[REQUEST]` then `[RESPONSE]`, the latter with the handler's status and a duration equal to the difference of the two clock readings whenever both are non-negative, and non-negative when the clock did not go back; a denied one ends with status 401 and one warning |
| AccessGate.AnonymousRequestScenario | src/main/java/org/example/expert/logging/MyInterceptorHandler.java:19-25 | a request with neither identity attribute is refused with 401 and the single warning `userId:null, userRole:null` |
| AccessGate.NonAdminScenario | src/main/java/org/example/expert/logging/MyInterceptorHandler.java:20-25 | a user id with the role `USER` is refused with 401 and no `startTime` is written |
| AuditLogger.ToJson | src/main/java/org/example/expert/logging/MyLoggingAspectHandler.java:75-82 | total: the serialiser's text when it succeeds, exactly "could not serialize object" when it throws |
| AuditLogger.FirstRequestBodyIndex | src/main/java/org/example/expert/logging/MyLoggingAspectHandler.java:65-72 | the smallest index whose annotations include `RequestBody`, or none when no parameter (or no parameter at all) has one |
| AuditLogger.RequestBodyOfCases | src/main/java/org/example/expert/logging/MyLoggingAspectHandler.java:65-72 | the body is `args[i]` for the first `@RequestBody` parameter `i`, and null when there is none |
| AuditLogger.ExtractRequestBody | src/main/java/org/example/expert/logging/MyLoggingAspectHandler.java:52-73 | the nested scan returns exactly the argument of the first `@RequestBody` parameter, or null |
| AuditLogger.JoinPoint.Proceed | src/main/java/org/example/expert/logging/MyLoggingAspectHandler.java:44 | running the advised method yields its outcome and records one call, with the log length at that moment |
| AuditLogger.LogAdminApi | src/main/java/org/example/expert/logging/MyLoggingAspectHandler.java:33-50 | returns the advised outcome unchanged; proceeds exactly once, right after the REQUEST event; the REQUEST event carries `toJson(body)` and the RESPONSE event `toJson(result)`, with the same user id and URI; no RESPONSE event when the method throws; a failing `userId` cast logs and runs nothing |
| AuditLogger.DeleteUserScenario | src/main/java/org/example/expert/logging/MyLoggingAspectHandler.java:33-50 | `DELETE /admin/users/42` by user 7 with only a path variable logs the serialised null body, then the serialised result, and returns the result |
| Signup.Violation.Message | src/main/java/org/example/expert/domain/auth/dto/request/SignupRequest.java:20-21 | exactly the size and pattern constraints carry their own messages, and each carries the text declared on it |
| Signup.PatternMeaning | src/main/java/org/example/expert/domain/auth/dto/request/SignupRequest.java:21 | the regex, read with Java's `matches()` semantics, holds iff the password has an ASCII upper-case letter, an ASCII digit and no line terminator |
| Signup.EmailViolations | src/main/java/org/example/expert/domain/auth/dto/request/SignupRequest.java:16-17 | reports `NotBlank` iff the email is blank and `Email` iff it is non-null, non-empty and not an address |
| Signup.PasswordViolations | src/main/java/org/example/expert/domain/auth/dto/request/SignupRequest.java:18-22 | reports `NotBlank`, `Size` and `Pattern` each iff its own constraint fails, null passing size and pattern |
| Signup.UserRoleViolations | src/main/java/org/example/expert/domain/auth/dto/request/SignupRequest.java:23-24 | no violation iff the role is not blank; `NotBlank` is the only constraint |
| Signup.Violations | src/main/java/org/example/expert/domain/auth/dto/request/SignupRequest.java:16-24 | a violation is reported iff its constraint fails on its own field |
| Signup.ValidIffNoViolations | src/main/java/org/example/expert/domain/auth/dto/request/SignupRequest.java:16-24 | no violation is reported iff every constraint, stated directly on the fields, holds |
| Signup.FieldsIndependent | src/main/java/org/example/expert/domain/auth/dto/request/SignupRequest.java:16-24 | the violations of one field do not depend on the other fields |
| Signup.ShortPasswordRejected | src/main/java/org/example/expert/domain/auth/dto/request/SignupRequest.java:20 | a password shorter than 8 characters is reported with "비밀번호는 8자 이상이어야 합니다" |
| Signup.WeakPasswordRejected | src/main/java/org/example/expert/domain/auth/dto/request/SignupRequest.java:21 | a password lacking an upper-case letter or a digit, or holding a line terminator, is reported with "최소 한 개의 숫자와 대문자를 포함해야 합니다." |
| Signup.BlankRejected | src/main/java/org/example/expert/domain/auth/dto/request/SignupRequest.java:16-23 | a null, empty or whitespace-only field is reported as blank |
| Signup.EmptyEmailOnlyBlank | src/main/java/org/example/expert/domain/auth/dto/request/SignupRequest.java:16-17 | an empty email is reported as blank and for nothing else, since `@Email` accepts the empty string |
| Signup.NullPasswordOnlyBlank | src/main/java/org/example/expert/domain/auth/dto/request/SignupRequest.java:18-21 | a null password is reported as blank and for nothing else |
| Signup.AnyNonBlankRoleAccepted | src/main/java/org/example/expert/domain/auth/dto/request/SignupRequest.java:23-24 | any non-blank role passes |
| Signup.ExamplePasswordAccepted | src/main/java/org/example/expert/domain/auth/dto/request/SignupRequest.java:18-22 | "Abcdefg1" satisfies every password constraint |
| Signup.ExampleNoUpperCaseRejected | src/main/java/org/example/expert/domain/auth/dto/request/SignupRequest.java:21 | "abcdefg1" fails the pattern only |
| Signup.ExampleNoDigitRejected | src/main/java/org/example/expert/domain/auth/dto/request/SignupRequest.java:21 | "ABCDEFGH" fails the pattern only |
| Signup.ExampleLineBreakRejected | src/main/java/org/example/expert/domain/auth/dto/request/SignupRequest.java:21 | "Abcdefg1" followed by a line feed fails the pattern only |
| Signup.ExampleShortRejected | src/main/java/org/example/expert/domain/auth/dto/request/SignupRequest.java:20 | "Abc1" fails the size constraint only |

## Left out

- Path scope: the gate is registered for `/admin/comments/**` and `/admin/users/**` in `WebConfig`, and Spring's path matcher decides which requests reach it. The model assumes every request handed to `AccessGate` is governed. It does not model the matcher.
- Which controller methods the audit wrapper advises: this is decided by AspectJ pointcut matching on the two admin controllers. The model starts from the join point.
- The framework's dispatch and error handling around the wrapped call, for example the status set when a controller throws. `PreHandleThenAfterCompletion` only fixes the callback order and takes the handler's status as an input.
- AuditLogger.JoinPoint.Proceed: the advised controller method is a fixed outcome. Whatever it logs or changes on its own is not modelled.
- AccessGate.PreHandle: the unused `handler` parameter is dropped. So are `afterCompletion`'s `handler` and `ex`. `sendError` on an already committed response would throw, and that is not modelled.
- Log formatting and the slf4j sink are left out. Events are records with the format's placeholders as fields. Levels are `Warn` for the denial and `Info` for everything else.
- `LocalDateTime.now()` in the audit wrapper is an integer input. `System.currentTimeMillis()` is a `long` input.
- AuditLogger.ToJson: Jackson's output is a partial function parameter. A `java.lang.Error` thrown by the serialiser is not caught by the source (it catches `Exception`), and the model does not represent it.
- Signup.EmailViolations: the address syntax of `@Email` is a predicate parameter, not Hibernate Validator's regular expressions.
- Signup.PasswordViolations: the size constraint counts Dafny characters (Unicode scalar values). Java counts UTF-16 code units, so a password with characters outside the Basic Multilingual Plane is longer in Java than in the model.
- Signup.NotBlankHolds follows `String.trim()`, which is how Hibernate Validator implements `@NotBlank`: code points up to U+0020 are blank.
- The `UserRole` enumeration is not part of this model beyond `ADMIN` and one other role, `USER`.
- `TodoRepository` holds only ORM query annotations with no logic of their own.
- The password encoder exercised by `PasswordEncoderTest` is not part of this model.
- Concurrency: each request is modelled in isolation.

# Hosting diagnostic listener of Application Insights for ASP.NET Core

This project models the request-tracking core of the Application Insights SDK for ASP.NET Core in
Dafny. The model covers two things. The first is `HostingDiagnosticListener`, which listens to the
host's diagnostic events and turns one inbound HTTP request into telemetry. The second is
`HttpRequestExtensions.GetUri`, which builds the request URL recorded with it.

A request's lifecycle in the model works as follows:

- **Start.** The modern `HttpRequestIn.Start` event or the legacy `BeginRequest` event works out the
  request's trace identity.
  - On a legacy host, the identity comes from the `Request-Id` header (with `Correlation-Context`
    baggage), else from the `x-ms-request-root-id` header, else from nothing.
  - On a modern host, it comes from the ambient activity's parent, else from
    `x-ms-request-root-id`.
- **Record creation.** Start then creates the request record. The parent comes from the activity or
  from `x-ms-request-id`. When the identity came from `Request-Id`, the baggage is copied into the
  properties with the first occurrence winning. The record is stored in the request's feature slot.
- **Request-Context header.** Start may also write the application's correlation id into the
  `Request-Context` response header under the key `appId`.
- **Exception events.** These mark the stored record as failed and submit an exception record
  handled by the platform. On a legacy host an unhandled exception also ends the request, because
  no `EndRequest` follows it.
- **Stop.** The `HttpRequestIn.Stop` or `EndRequest` event finalises the stored record:
  - stop timestamp
  - response code as decimal text
  - success ANDed with `status < 400`
  - default name `"<method> <path>"`
  - HTTP method, URL and SDK version

  It then submits the record and stops the activity only if the listener created it.

## Files

| file | module | contents |
|---|---|---|
| `wrappers.dfy` | `Wrappers` | `Option` and `Result` |
| `telemetry.dfy` | `Telemetry` | Activity, request and exception records, the client's submission items, decimal text of a status code and its parse-back |
| `http_request_extensions.dfy` | `HttpRequestExtensions` | the request facts, `UriOf` (the specification of GetUri), the `GetUri` method, URL layout lemmas |
| `hosting_spec.dfy` | `HostingSpec` | the rules as functions on values (start plans, baggage parsing and copying, the record at Start, record events, the Request-Context rule, the outcome of EndRequest), with their lemmas |
| `diagnostic_listeners.dfy` | `DiagnosticListeners` | class `HttpContext` (status, Request-Context header, the two feature slots) and class `HostingDiagnosticListener` (its handlers), each proved against `HostingSpec` |
| `scenarios.dfy` | `Scenarios` | whole lifecycles driven through the handlers |

### How the state is represented

- **Activities and records.** These framework objects are datatype values held in the
  `HttpContext` feature slots `activity` and `telemetry`. A handler that changes them writes a new
  value into the slot.
- **The telemetry client.** It is the listener's `enabled` flag, its `instrumentationKey`, and the
  log `submitted` of every item handed to it, in order.
- **Correlation ids.** The correlation-id lookup is the map `correlationIds`.
- **Framework behaviour.** Three framework behaviours are the function-typed fields of
  `HostingSpec.Framework`:
  - the root id an activity derives
  - the splitting of a comma-separated header value
  - `NameValueHeaderValue.TryParse`
- **Inputs.** The ids a new activity receives and the `Stopwatch` timestamps are handler
  parameters.

### Behaviour of the code worth noting

- **Stop is not idempotent.** EndRequest never removes the record from the feature slot
  (HostingDiagnosticListener.cs lines 243-271), so every further Stop for the same request stamps
  the record again and submits it again (`Scenarios.RepeatedStopSubmitsAgain`).
- **When Request-Context is written.** The appId pair is written only when the response has no
  Request-Context header or the header already carries the appId key (line 229). A header that
  carries only other keys is left as it is (`HostingSpec.RequestContextAfterStart`).
- **GetUri failures.** An exception thrown by GetUri (line 269) escapes EndRequest. By then the stop
  fields of the record are already set, and nothing has been submitted and no activity has been
  stopped (`HostingSpec.EndRequestResult`, field `thrown`).
- **Unhandled exceptions on a legacy host.** Such a host raises UnhandledException and sends no
  EndRequest, so the listener ends the request itself and reads whatever status the response holds
  at that moment (line 251). If that status is still below 400, the record carries that code with
  success false. `Scenarios.UnhandledExceptionOnLegacyHost` picks status 200, the status a fresh
  `HttpContext` of the model holds, and gets response code "200" with success false.

## Model

| member | source | states |
|---|---|---|
| DiagnosticListeners.HostingDiagnosticListener.constructor | src/Microsoft.ApplicationInsights.AspNetCore/DiagnosticListeners/Implementation/HostingDiagnosticListener.cs:38-43 | the listener keeps its client, lookup and SDK version; nothing is submitted yet |
| DiagnosticListeners.HostingDiagnosticListener.OnHttpRequestInStart | src/Microsoft.ApplicationInsights.AspNetCore/DiagnosticListeners/Implementation/HostingDiagnosticListener.cs:60-90 | disabled client or no ambient activity: the request is untouched; otherwise the activity slot gets the activity the listener starts (if any), the record slot the record built from the plan of `ModernStart`, and the Request-Context header its value after `RequestContextAfterStart` |
| DiagnosticListeners.HostingDiagnosticListener.OnHttpRequestInStop | src/Microsoft.ApplicationInsights.AspNetCore/DiagnosticListeners/Implementation/HostingDiagnosticListener.cs:95-99 | the slots, the log and the escaping exception are those of `EndRequestResult`; a null context changes nothing |
| DiagnosticListeners.HostingDiagnosticListener.OnBeginRequest | src/Microsoft.ApplicationInsights.AspNetCore/DiagnosticListeners/Implementation/HostingDiagnosticListener.cs:104-144 | on a modern host or with the client disabled nothing changes; otherwise the activity slot holds the started activity of `LegacyStart`, the record slot its initial record, and the Request-Context header is updated by the app-id rule |
| DiagnosticListeners.HostingDiagnosticListener.OnEndRequest | src/Microsoft.ApplicationInsights.AspNetCore/DiagnosticListeners/Implementation/HostingDiagnosticListener.cs:149-156 | a modern host ignores the legacy stop (nothing changes); a legacy one ends the request as `EndRequestResult` says |
| DiagnosticListeners.HostingDiagnosticListener.OnHostingException | src/Microsoft.ApplicationInsights.AspNetCore/DiagnosticListeners/Implementation/HostingDiagnosticListener.cs:161-172 | the exception record is submitted and the stored record failed; on a legacy host the request is then ended from that failed record, its submission following the exception record |
| DiagnosticListeners.HostingDiagnosticListener.OnDiagnosticsHandledException | src/Microsoft.ApplicationInsights.AspNetCore/DiagnosticListeners/Implementation/HostingDiagnosticListener.cs:177-181 | exactly one exception record is appended when enabled and the stored record, if any, becomes failed; nothing else changes |
| DiagnosticListeners.HostingDiagnosticListener.OnDiagnosticsUnhandledException | src/Microsoft.ApplicationInsights.AspNetCore/DiagnosticListeners/Implementation/HostingDiagnosticListener.cs:186-190 | the same effect as the handled-exception event |
| DiagnosticListeners.HostingDiagnosticListener.InitializeRequestTelemetryFromActivity | src/Microsoft.ApplicationInsights.AspNetCore/DiagnosticListeners/Implementation/HostingDiagnosticListener.cs:192-222 | the returned and stored record is `InitialTelemetry` of the activity: identity, parent, baggage properties, instrumentation key, start timestamp |
| DiagnosticListeners.HostingDiagnosticListener.SetAppIdInResponseHeader | src/Microsoft.ApplicationInsights.AspNetCore/DiagnosticListeners/Implementation/HostingDiagnosticListener.cs:224-237 | the Request-Context header after the call is `RequestContextAfterStart` of the old one |
| DiagnosticListeners.HostingDiagnosticListener.EndRequest | src/Microsoft.ApplicationInsights.AspNetCore/DiagnosticListeners/Implementation/HostingDiagnosticListener.cs:239-279 | the record slot, activity slot, log and escaping exception are those of `EndRequestResult` on the old slots; status and Request-Context are unchanged; a null context changes nothing |
| DiagnosticListeners.HostingDiagnosticListener.OnException | src/Microsoft.ApplicationInsights.AspNetCore/DiagnosticListeners/Implementation/HostingDiagnosticListener.cs:281-296 | enabled: the stored record (if any) becomes unsuccessful and exactly one platform-handled exception record with the SDK version is appended; disabled: nothing changes; the activity is never touched |
| DiagnosticListeners.AddCorrelationBaggage | src/Microsoft.ApplicationInsights.AspNetCore/DiagnosticListeners/Implementation/HostingDiagnosticListener.cs:120-131 | the loop builds `ParsedBaggage`; a pair is in the baggage exactly when some item parses to it |
| DiagnosticListeners.CopyBaggage | src/Microsoft.ApplicationInsights.AspNetCore/DiagnosticListeners/Implementation/HostingDiagnosticListener.cs:201-207 | the loop computes `FirstWins`; the keys are the old keys plus the baggage keys, and no existing property is overwritten |
| DiagnosticListeners.StopTelemetry | src/Microsoft.ApplicationInsights.AspNetCore/DiagnosticListeners/Implementation/HostingDiagnosticListener.cs:250-268 | the record after the step-by-step stop updates is the record after the `Stopped` event |
| HostingSpec.LegacyStart | src/Microsoft.ApplicationInsights.AspNetCore/DiagnosticListeners/Implementation/HostingDiagnosticListener.cs:107-139 | the listener always creates and stores a running activity; parent and root come from Request-Id (with parsed Correlation-Context baggage) or else x-ms-request-root-id or else none; the identity counts as from Request-Id exactly when that header is present |
| HostingSpec.ModernStart | src/Microsoft.ApplicationInsights.AspNetCore/DiagnosticListeners/Implementation/HostingDiagnosticListener.cs:63-85 | an ambient parent makes the record use the ambient activity and count as from Request-Id; otherwise x-ms-request-root-id makes the listener create and use its own activity parented on it; otherwise the ambient activity is used and nothing is created |
| HostingSpec.ParsedBaggageMembers | src/Microsoft.ApplicationInsights.AspNetCore/DiagnosticListeners/Implementation/HostingDiagnosticListener.cs:123-130 | a pair is baggage exactly when some Correlation-Context item parses to it |
| HostingSpec.FirstWinsKeys | src/Microsoft.ApplicationInsights.AspNetCore/DiagnosticListeners/Implementation/HostingDiagnosticListener.cs:201-207 | the copied properties have exactly the old keys plus every baggage key |
| HostingSpec.FirstWinsKeepsExisting | src/Microsoft.ApplicationInsights.AspNetCore/DiagnosticListeners/Implementation/HostingDiagnosticListener.cs:203-206 | a key already present keeps its value |
| HostingSpec.FirstWinsFirstOccurrence | src/Microsoft.ApplicationInsights.AspNetCore/DiagnosticListeners/Implementation/HostingDiagnosticListener.cs:201-207 | a new key takes the value of its first occurrence in enumeration order |
| HostingSpec.CorrelationContextLastItemWins | src/Microsoft.ApplicationInsights.AspNetCore/DiagnosticListeners/Implementation/HostingDiagnosticListener.cs:123-131 | because AddBaggage puts the newest pair first, a key repeated in Correlation-Context ends up with the value of its last well-formed item |
| HostingSpec.InitialTelemetry | src/Microsoft.ApplicationInsights.AspNetCore/DiagnosticListeners/Implementation/HostingDiagnosticListener.cs:192-222 | id and operation id are the activity's id and root id; the parent is the activity's (identity from Request-Id) or x-ms-request-id or none; properties are empty unless from Request-Id; no name, success, stop or URL yet |
| HostingSpec.PropertiesAreBaggageKeys | src/Microsoft.ApplicationInsights.AspNetCore/DiagnosticListeners/Implementation/HostingDiagnosticListener.cs:197-208 | with the identity from Request-Id, the property keys are exactly the baggage keys |
| HostingSpec.Apply | src/Microsoft.ApplicationInsights.AspNetCore/DiagnosticListeners/Implementation/HostingDiagnosticListener.cs:250-270 | no event changes identity, parent, properties or start; an exception sets success false; a stop sets success true exactly when it was not false and status < 400, keeps an existing name else names it "method path", and writes the status text; false success stays false |
| HostingSpec.FailureIsSticky | src/Microsoft.ApplicationInsights.AspNetCore/DiagnosticListeners/Implementation/HostingDiagnosticListener.cs:254-261 | once success is false, no sequence of events makes it anything else |
| HostingSpec.ExceptionMeansFailure | src/Microsoft.ApplicationInsights.AspNetCore/DiagnosticListeners/Implementation/HostingDiagnosticListener.cs:285-289 | any observed exception in a sequence of events leaves the record unsuccessful |
| HostingSpec.ErrorStatusMeansFailure | src/Microsoft.ApplicationInsights.AspNetCore/DiagnosticListeners/Implementation/HostingDiagnosticListener.cs:253-261 | any stop with status 400 or more leaves the record unsuccessful, whatever follows |
| HostingSpec.IdentityIsStable | src/Microsoft.ApplicationInsights.AspNetCore/DiagnosticListeners/Implementation/HostingDiagnosticListener.cs:250-270 | no sequence of events changes id, operation id, parent or properties |
| HostingSpec.RequestContextAfterStart | src/Microsoft.ApplicationInsights.AspNetCore/DiagnosticListeners/Implementation/HostingDiagnosticListener.cs:224-237 | the header changes only when headers exist, the key is non-empty, the header is absent or holds appId, and the lookup knows the key; then appId holds the correlation id and every other key keeps its value |
| HostingSpec.StopIfOwned | src/Microsoft.ApplicationInsights.AspNetCore/DiagnosticListeners/Implementation/HostingDiagnosticListener.cs:273-277 | only an activity the listener created is stopped; any other activity, and every other field, is unchanged |
| HostingSpec.EndEvents | src/Microsoft.ApplicationInsights.AspNetCore/DiagnosticListeners/Implementation/HostingDiagnosticListener.cs:250-270 | the stop event with timestamp, status, method and path first, then, exactly when the URL can be built, the stamp with that URL and the SDK version |
| HostingSpec.EndRequestResult | src/Microsoft.ApplicationInsights.AspNetCore/DiagnosticListeners/Implementation/HostingDiagnosticListener.cs:239-279 | disabled client or no record: nothing changes; otherwise at most one item is submitted, and one is exactly when the URL can be built; it is the finalised record itself, carrying URL, SDK version, status text and a success value, and the own activity is stopped; a URL error escapes with the activity untouched |
| HostingSpec.EndRequestSubmitsStamped | src/Microsoft.ApplicationInsights.AspNetCore/DiagnosticListeners/Implementation/HostingDiagnosticListener.cs:269-277 | with a URL, the one submitted item is the stored record after the stop and the stamp, and the activity is `StopIfOwned` of the old one |
| HostingSpec.EndRequestAppliesEvents | src/Microsoft.ApplicationInsights.AspNetCore/DiagnosticListeners/Implementation/HostingDiagnosticListener.cs:250-270 | the record EndRequest leaves behind is the stored record after the events of `EndEvents` |
| HttpRequestExtensions.UriOf | src/Microsoft.ApplicationInsights.AspNetCore/Extensions/HttpRequestExtensions.cs:17-51 | ArgumentNull exactly for a null request; ArgumentException with the scheme message exactly for a null or whitespace scheme; with the host message exactly for a missing host after a good scheme |
| HttpRequestExtensions.GetUri | src/Microsoft.ApplicationInsights.AspNetCore/Extensions/HttpRequestExtensions.cs:17-51 | the buffer built by the appends equals `UriOf` on every input, error cases included |
| HttpRequestExtensions.UriLayout | src/Microsoft.ApplicationInsights.AspNetCore/Extensions/HttpRequestExtensions.cs:34-48 | the URL is the scheme, then "://", then host, path and query, with the summed length |
| HttpRequestExtensions.SchemeOfPrefix | src/Microsoft.ApplicationInsights.AspNetCore/Extensions/HttpRequestExtensions.cs:36-37 | text before the first ':' is recovered exactly |
| HttpRequestExtensions.UriSchemeRoundTrip | src/Microsoft.ApplicationInsights.AspNetCore/Extensions/HttpRequestExtensions.cs:36-38 | reading the scheme back from a built URL gives the request's scheme |
| Telemetry.NatToString | src/Microsoft.ApplicationInsights.AspNetCore/DiagnosticListeners/Implementation/HostingDiagnosticListener.cs:251 | the text is non-empty decimal digits with no leading zero |
| Telemetry.IntToString | src/Microsoft.ApplicationInsights.AspNetCore/DiagnosticListeners/Implementation/HostingDiagnosticListener.cs:251 | the text is non-empty and starts with '-' exactly for a negative code |
| Telemetry.NatToStringRoundTrip | src/Microsoft.ApplicationInsights.AspNetCore/DiagnosticListeners/Implementation/HostingDiagnosticListener.cs:251 | the digits parse back to the number |
| Telemetry.IntToStringRoundTrip | src/Microsoft.ApplicationInsights.AspNetCore/DiagnosticListeners/Implementation/HostingDiagnosticListener.cs:251 | the response code text parses back to the status code |
| Scenarios.KnownUri | src/Microsoft.ApplicationInsights.AspNetCore/Extensions/HttpRequestExtensions.cs:24-50 | a scheme with a visible first character plus a host always yields a URL |
| Scenarios.StatusTexts | src/Microsoft.ApplicationInsights.AspNetCore/DiagnosticListeners/Implementation/HostingDiagnosticListener.cs:251 | status 500 is written "500" and 200 is written "200" |
| Scenarios.ThrowingRequestStop | src/Microsoft.ApplicationInsights.AspNetCore/DiagnosticListeners/Implementation/HostingDiagnosticListener.cs:239-279 | stopping, with status 500, the failed record that a Start from an ambient activity parented on a Request-Id left for GET /Home/Exception submits one record: "500", unsuccessful, given the default name "GET /Home/Exception", with that parent, id, operation id and URL |
| Scenarios.ThrowingControllerOnModernHost | src/Microsoft.ApplicationInsights.AspNetCore/DiagnosticListeners/Implementation/HostingDiagnosticListener.cs:161-172 | a modern Start, the host's unhandled-exception event, status 500 and Stop: the client receives the platform-handled exception record, then the failed "500" request record with its default name, parent and URL |
| Scenarios.LegacyExceptionStop | src/Microsoft.ApplicationInsights.AspNetCore/DiagnosticListeners/Implementation/HostingDiagnosticListener.cs:161-172 | ending a legacy request from the unhandled-exception event gives response code "200" yet success false, and stops the activity |
| Scenarios.UnhandledExceptionOnLegacyHost | src/Microsoft.ApplicationInsights.AspNetCore/DiagnosticListeners/Implementation/HostingDiagnosticListener.cs:161-172 | the whole legacy run: exception record, then a "200" unsuccessful request record, and the own activity stopped |
| Scenarios.RepeatedStopSubmitsAgain | src/Microsoft.ApplicationInsights.AspNetCore/DiagnosticListeners/Implementation/HostingDiagnosticListener.cs:243-271 | two stops for one request submit the same record twice |
| Scenarios.TwoItemCorrelationContext | src/Microsoft.ApplicationInsights.AspNetCore/DiagnosticListeners/Implementation/HostingDiagnosticListener.cs:120-131 | `Correlation-Context: a=1,b=2` yields the properties a=1 and b=2 |
| Scenarios.CorrelationContextBecomesProperties | src/Microsoft.ApplicationInsights.AspNetCore/DiagnosticListeners/Implementation/HostingDiagnosticListener.cs:112-141 | a legacy Start with Request-Id and that Correlation-Context stores a record parented on the Request-Id with those properties |

## Left out

- Event-source logging is left out. This includes the log line written when a modern Start finds
  no ambient activity.
- Reflection-based detection of the host version is left out. `isAspNetCore20` is a constant of
  the listener.
- `Stopwatch.GetTimestamp()` is left out. Timestamps are handler parameters, and a record's
  duration is not computed.
- The telemetry client is not modelled. It is reduced to an enabled flag, an instrumentation key
  and a log of what it is given. The other enrichment of the client's `Initialize` is not part of
  this model.
- The remaining behaviour of `Activity` is not modelled:
  - its id format
  - root-id derivation (an opaque function)
  - the ambient `Activity.Current` and how it changes after a handler
  - an ambient activity at a legacy BeginRequest: `OnBeginRequest` takes none, so
    `HostingSpec.LegacyStart` gives an activity without a Request-Id or root-id header no parent
    and derives its root from its own id; with an ambient activity present, `Activity.Start`
    (line 138) would parent the new activity on it
  - start and stop times
- Aliasing is not modelled. The record handed to the client and the record in the feature slot are
  one object in the source. The model submits a snapshot, so later changes to the slot do not show
  in earlier log entries.
- Header lookup in the model is exact. In the source it is case-insensitive, so a header written
  in a different case is not found here.
- `HttpHeadersUtilities` is not part of this model. Its Request-Context parsing and writing are
  represented by a map of key/value pairs.
- `GetUri` is modelled without URL escaping and validation:
  - the component escaping of `HostString` and `QueryString` is absent
  - the validation done by `new Uri(...)` is absent
  - the URL is the plain concatenation
- The empty `OnHttpRequestIn` handler has no effect and is not modelled.
- The `ListenerName` property and the listener's registration are not modelled.
- A null `HttpContext` in the Start handlers is excluded by the parameter types. The source would
  throw there.
- Telemetry.IntToString: every `int` is written in decimal. The 32-bit range of the status code
  is not enforced.
- Scenarios.ThrowingRequestStop: the functional test of the MVC sample (ExceptionTelemetryMvcTests.cs lines 15-29) expects the route-based name "GET Home/Exception", which is set outside this listener (EndRequest keeps any non-empty name, lines 263-266), and sends no Request-Id; the scenario instead shows the listener's default name and a Request-Id parent.
- Scenarios.ThrowingControllerOnModernHost: for the same reason it does not reproduce that test's route-based name; it states the default name "method path" and a Request-Id parent.

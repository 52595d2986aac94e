/**
 * The hosting diagnostic listener: the handlers the host's diagnostic events call, each
 * changing one request's feature slots and response header and the telemetry client's
 * submission log.
 */
module DiagnosticListeners {
  import opened Wrappers
  import opened Telemetry
  import opened HttpRequestExtensions
  import opened HostingSpec

  /**
   * One request as the listener sees it: the request facts, the response status code and its
   * Request-Context header (None when absent; `hasResponseHeaders` is false when the response has
   * no header collection), and the two request-scoped feature slots.
   */
  class HttpContext {
    const request: HttpRequest
    const hasResponseHeaders: bool
    var statusCode: int
    var requestContext: Option<map<string, string>>
    var activity: Option<Activity>
    var telemetry: Option<RequestTelemetry>

    constructor (request: HttpRequest, hasResponseHeaders: bool, requestContext: Option<map<string, string>>)
      ensures this.request == request && this.hasResponseHeaders == hasResponseHeaders
      ensures this.requestContext == requestContext
      ensures statusCode == 200 && activity == None && telemetry == None
    {
      this.request := request;
      this.hasResponseHeaders := hasResponseHeaders;
      this.requestContext := requestContext;
      statusCode := 200;
      activity := None;
      telemetry := None;
    }
  }

  /**
   * Adds each well-formed item of a Correlation-Context header to an activity's baggage, in
   * order, skipping the items that do not parse; returns the baggage in enumeration order.
   */
  method AddCorrelationBaggage(items: seq<string>, parse: string -> Option<Pair>) returns (baggage: seq<Pair>)
    ensures baggage == ParsedBaggage(items, parse)
    ensures forall p :: p in baggage <==> exists i :: 0 <= i < |items| && parse(items[i]) == Some(p)
  {
    baggage := [];
    for i := 0 to |items|
      invariant baggage == ParsedBaggage(items[..i], parse)
    {
      assert items[..i + 1][..i] == items[..i];
      match parse(items[i])
      case Some(item) =>
        baggage := [item] + baggage;
      case None =>
    }
    assert items[..|items|] == items;
    forall p ensures p in baggage <==> exists i :: 0 <= i < |items| && parse(items[i]) == Some(p) {
      ParsedBaggageMembers(items, parse, p);
    }
  }

  /**
   * Copies baggage into record properties, visiting it in enumeration order and skipping every
   * key already present.
   */
  method CopyBaggage(properties: map<string, string>, baggage: seq<Pair>) returns (r: map<string, string>)
    ensures r == FirstWins(properties, baggage)
    ensures r.Keys == properties.Keys + KeysOf(baggage)
    ensures forall k :: k in properties ==> r[k] == properties[k]
  {
    r := properties;
    for i := 0 to |baggage|
      invariant FirstWins(r, baggage[i..]) == FirstWins(properties, baggage)
    {
      assert baggage[i..][1..] == baggage[i + 1..];
      var (key, value) := baggage[i];
      if key !in r {
        r := r[key := value];
      }
    }
    FirstWinsKeys(properties, baggage);
    forall k | k in properties ensures r[k] == properties[k] {
      FirstWinsKeepsExisting(properties, baggage, k);
    }
  }

  /**
   * The part of EndRequest that finalises the record before its URL is computed: the stop
   * timestamp, the response code, the success flag ANDed with `statusCode < 400` (or set to it
   * when unset), the default name "<method> <path>" and the HTTP method.
   */
  method StopTelemetry(t: RequestTelemetry, timestamp: int, statusCode: int, httpMethod: string, path: string)
    returns (r: RequestTelemetry)
    ensures r == Apply(t, Stopped(timestamp, statusCode, httpMethod, path))
  {
    r := t.(stopTimestamp := Some(timestamp));
    r := r.(responseCode := IntToString(statusCode));
    var successExitCode := statusCode < 400;
    if r.success.None? {
      r := r.(success := Some(successExitCode));
    } else {
      r := r.(success := Some(r.success.value && successExitCode));
    }
    if r.name == "" {
      r := r.(name := httpMethod + " " + path);
    }
    r := r.(httpMethod := httpMethod);
  }

  /**
   * The listener. Its telemetry client is the `enabled` flag, the instrumentation key that
   * Initialize gives every record, and the log `submitted` of everything handed to it; the
   * correlation-id lookup is the map `correlationIds`; `framework` stands for the activity and
   * header-parsing behaviour the listener relies on.
   */
  class HostingDiagnosticListener {
    const isAspNetCore20: bool
    const sdkVersion: string
    const instrumentationKey: string
    const correlationIds: map<string, string>
    const framework: Framework
    var enabled: bool
    var submitted: seq<SentItem>

    constructor (isAspNetCore20: bool, sdkVersion: string, instrumentationKey: string,
                 correlationIds: map<string, string>, framework: Framework, enabled: bool)
      ensures this.isAspNetCore20 == isAspNetCore20 && this.sdkVersion == sdkVersion
      ensures this.instrumentationKey == instrumentationKey && this.correlationIds == correlationIds
      ensures this.framework == framework && this.enabled == enabled && submitted == []
    {
      this.isAspNetCore20 := isAspNetCore20;
      this.sdkVersion := sdkVersion;
      this.instrumentationKey := instrumentationKey;
      this.correlationIds := correlationIds;
      this.framework := framework;
      this.enabled := enabled;
      submitted := [];
    }

    /**
     * Start on a modern host. `current` is the ambient activity the host started for the
     * request; `newId` the id the framework gives an activity this handler starts.
     */
    method OnHttpRequestInStart(ctx: HttpContext, current: Option<Activity>, newId: string, timestamp: int)
      modifies ctx`activity, ctx`telemetry, ctx`requestContext
      ensures !enabled || current.None? ==> unchanged(ctx)
      ensures enabled && current.Some? ==>
                var p := ModernStart(current.value, ctx.request.headers, newId, framework);
                var t := InitialTelemetry(p.source, p.fromRequestIdHeader, ctx.request.headers, instrumentationKey, timestamp);
                && ctx.activity == (if p.created.Some? then p.created else old(ctx.activity))
                && ctx.telemetry == Some(t)
                && ctx.requestContext == RequestContextAfterStart(ctx.hasResponseHeaders, old(ctx.requestContext), instrumentationKey, correlationIds)
    {
      if enabled {
        if current.None? {
          return;
        }
        var source := current.value;
        var fromRequestIdHeader := false;
        if source.parentId.Some? {
          fromRequestIdHeader := true;
        } else if StandardRootIdHeader in ctx.request.headers {
          var created := StartedActivity(ActivityCreatedByHostingDiagnosticListener,
                                         Some(ctx.request.headers[StandardRootIdHeader]), [], newId, framework);
          ctx.activity := Some(created);
          source := created;
        }
        var t := InitializeRequestTelemetryFromActivity(ctx, source, fromRequestIdHeader, timestamp);
        SetAppIdInResponseHeader(ctx, t);
      }
    }

    /** Stop on a modern host. */
    method OnHttpRequestInStop(ctx: HttpContext?, timestamp: int) returns (thrown: Option<UriError>)
      modifies this`submitted, ctx
      ensures ctx != null ==> ctx.statusCode == old(ctx.statusCode) && ctx.requestContext == old(ctx.requestContext)
      ensures ctx == null ==> submitted == old(submitted) && thrown == None
      ensures ctx != null ==>
                var o := EndRequestResult(enabled, old(ctx.telemetry), old(ctx.activity), ctx.request,
                                          ctx.statusCode, timestamp, sdkVersion);
                ctx.telemetry == o.telemetry && ctx.activity == o.activity
                && submitted == old(submitted) + o.sent && thrown == o.thrown
    {
      thrown := EndRequest(ctx, timestamp);
    }

    /** Start on a legacy host: does nothing on a modern one. */
    method OnBeginRequest(ctx: HttpContext, newId: string, timestamp: int)
      modifies ctx`activity, ctx`telemetry, ctx`requestContext
      ensures !enabled || isAspNetCore20 ==> unchanged(ctx)
      ensures enabled && !isAspNetCore20 ==>
                var p := LegacyStart(ctx.request.headers, newId, framework);
                var t := InitialTelemetry(p.source, p.fromRequestIdHeader, ctx.request.headers, instrumentationKey, timestamp);
                && ctx.activity == p.created
                && ctx.telemetry == Some(t)
                && ctx.requestContext == RequestContextAfterStart(ctx.hasResponseHeaders, old(ctx.requestContext), instrumentationKey, correlationIds)
    {
      if enabled && !isAspNetCore20 {
        var headers := ctx.request.headers;
        var parentId: Option<string> := None;
        var baggage: seq<Pair> := [];
        var fromRequestIdHeader := false;
        if RequestIdHeader in headers {
          fromRequestIdHeader := true;
          parentId := Some(headers[RequestIdHeader]);
          var items := CorrelationItems(headers, framework);
          baggage := AddCorrelationBaggage(items, framework.tryParseNameValue);
        } else if StandardRootIdHeader in headers {
          parentId := Some(headers[StandardRootIdHeader]);
        }
        var activity := StartedActivity(ActivityCreatedByHostingDiagnosticListener, parentId, baggage, newId, framework);
        ctx.activity := Some(activity);
        var t := InitializeRequestTelemetryFromActivity(ctx, activity, fromRequestIdHeader, timestamp);
        SetAppIdInResponseHeader(ctx, t);
      }
    }

    /** Stop on a legacy host: does nothing on a modern one. */
    method OnEndRequest(ctx: HttpContext?, timestamp: int) returns (thrown: Option<UriError>)
      modifies this`submitted, ctx
      ensures ctx != null ==> ctx.statusCode == old(ctx.statusCode) && ctx.requestContext == old(ctx.requestContext)
      ensures isAspNetCore20 || ctx == null ==> submitted == old(submitted) && thrown == None
      ensures isAspNetCore20 && ctx != null ==> unchanged(ctx)
      ensures !isAspNetCore20 && ctx != null ==>
                var o := EndRequestResult(enabled, old(ctx.telemetry), old(ctx.activity), ctx.request,
                                          ctx.statusCode, timestamp, sdkVersion);
                ctx.telemetry == o.telemetry && ctx.activity == o.activity
                && submitted == old(submitted) + o.sent && thrown == o.thrown
    {
      thrown := None;
      if !isAspNetCore20 {
        thrown := EndRequest(ctx, timestamp);
      }
    }

    /**
     * The host's unhandled-exception event: the exception is recorded and, on a legacy host,
     * which sends no EndRequest after it, the request is ended here.
     */
    method OnHostingException(ctx: HttpContext?, exception: string, timestamp: int) returns (thrown: Option<UriError>)
      modifies this`submitted, ctx
      ensures ctx != null ==> ctx.statusCode == old(ctx.statusCode) && ctx.requestContext == old(ctx.requestContext)
      ensures var x := if enabled then [ExceptionItem(ExceptionTelemetry(exception, Platform, sdkVersion))] else [];
              && (isAspNetCore20 || ctx == null ==> submitted == old(submitted) + x && thrown == None)
              && (isAspNetCore20 && ctx != null ==>
                    ctx.activity == old(ctx.activity)
                    && ctx.telemetry == (if enabled && old(ctx.telemetry).Some? then Some(Apply(old(ctx.telemetry).value, ExceptionObserved)) else old(ctx.telemetry)))
              && (!isAspNetCore20 && ctx != null ==>
                    var failed := if enabled && old(ctx.telemetry).Some? then Some(Apply(old(ctx.telemetry).value, ExceptionObserved)) else old(ctx.telemetry);
                    var o := EndRequestResult(enabled, failed, old(ctx.activity), ctx.request, ctx.statusCode, timestamp, sdkVersion);
                    ctx.telemetry == o.telemetry && ctx.activity == o.activity
                    && submitted == old(submitted) + x + o.sent && thrown == o.thrown)
    {
      OnException(ctx, exception);
      thrown := None;
      if !isAspNetCore20 {
        thrown := EndRequest(ctx, timestamp);
      }
    }

    /** The diagnostics middleware's handled-exception event. */
    method OnDiagnosticsHandledException(ctx: HttpContext?, exception: string)
      modifies this`submitted, ctx
      ensures ctx != null ==> ctx.statusCode == old(ctx.statusCode) && ctx.requestContext == old(ctx.requestContext)
      ensures ctx != null ==> ctx.activity == old(ctx.activity)
      ensures !enabled ==> submitted == old(submitted) && (ctx != null ==> ctx.telemetry == old(ctx.telemetry))
      ensures enabled ==> submitted == old(submitted) + [ExceptionItem(ExceptionTelemetry(exception, Platform, sdkVersion))]
      ensures enabled && ctx != null ==>
                ctx.telemetry == if old(ctx.telemetry).Some? then Some(Apply(old(ctx.telemetry).value, ExceptionObserved)) else None
    {
      OnException(ctx, exception);
    }

    /** The diagnostics middleware's unhandled-exception event. */
    method OnDiagnosticsUnhandledException(ctx: HttpContext?, exception: string)
      modifies this`submitted, ctx
      ensures ctx != null ==> ctx.statusCode == old(ctx.statusCode) && ctx.requestContext == old(ctx.requestContext)
      ensures ctx != null ==> ctx.activity == old(ctx.activity)
      ensures !enabled ==> submitted == old(submitted) && (ctx != null ==> ctx.telemetry == old(ctx.telemetry))
      ensures enabled ==> submitted == old(submitted) + [ExceptionItem(ExceptionTelemetry(exception, Platform, sdkVersion))]
      ensures enabled && ctx != null ==>
                ctx.telemetry == if old(ctx.telemetry).Some? then Some(Apply(old(ctx.telemetry).value, ExceptionObserved)) else None
    {
      OnException(ctx, exception);
    }

    /**
     * Creates the request record from `activity` and stores it in the record slot; returns it.
     */
    method InitializeRequestTelemetryFromActivity(ctx: HttpContext, activity: Activity, fromRequestIdHeader: bool,
                                                  timestamp: int) returns (t: RequestTelemetry)
      modifies ctx`telemetry
      ensures t == InitialTelemetry(activity, fromRequestIdHeader, ctx.request.headers, instrumentationKey, timestamp)
      ensures ctx.telemetry == Some(t)
    {
      var parentId: Option<string> := None;
      var properties: map<string, string> := map[];
      if fromRequestIdHeader {
        parentId := activity.parentId;
        properties := CopyBaggage(properties, activity.baggage);
      } else if StandardParentIdHeader in ctx.request.headers {
        parentId := Some(ctx.request.headers[StandardParentIdHeader]);
      }
      t := RequestTelemetry(activity.id, activity.rootId, parentId, properties, "", "", "", None, 0, None, "", None, "");
      // the client's Initialize gives the record its instrumentation key; Start stamps the timestamp
      t := t.(instrumentationKey := instrumentationKey);
      t := t.(startTimestamp := timestamp);
      ctx.telemetry := Some(t);
    }

    /**
     * Writes the application's correlation id into the Request-Context response header when the
     * header collection exists, the record has an instrumentation key, the header is absent or
     * already carries the target key, and the lookup knows the key.
     */
    method SetAppIdInResponseHeader(ctx: HttpContext, t: RequestTelemetry)
      modifies ctx`requestContext
      ensures ctx.requestContext == RequestContextAfterStart(ctx.hasResponseHeaders, old(ctx.requestContext),
                                                             t.instrumentationKey, correlationIds)
    {
      if ctx.hasResponseHeaders && t.instrumentationKey != ""
         && (ctx.requestContext.None? || RequestContextTargetKey in ctx.requestContext.value)
      {
        if t.instrumentationKey in correlationIds {
          var correlationId := correlationIds[t.instrumentationKey];
          ctx.requestContext := Some(PairsOf(ctx.requestContext)[RequestContextTargetKey := correlationId]);
        }
      }
    }

    /**
     * Finalises and submits the stored record; returns the exception GetUri throws, if any,
     * which escapes before the record is submitted.
     */
    method EndRequest(ctx: HttpContext?, timestamp: int) returns (thrown: Option<UriError>)
      modifies this`submitted, ctx
      ensures ctx != null ==> ctx.statusCode == old(ctx.statusCode) && ctx.requestContext == old(ctx.requestContext)
      ensures ctx == null ==> submitted == old(submitted) && thrown == None
      ensures ctx != null ==>
                var o := EndRequestResult(enabled, old(ctx.telemetry), old(ctx.activity), ctx.request,
                                          ctx.statusCode, timestamp, sdkVersion);
                ctx.telemetry == o.telemetry && ctx.activity == o.activity
                && submitted == old(submitted) + o.sent && thrown == o.thrown
    {
      thrown := None;
      if enabled {
        if ctx == null || ctx.telemetry.None? {
          return;
        }
        var t := StopTelemetry(ctx.telemetry.value, timestamp, ctx.statusCode, ctx.request.httpMethod, ctx.request.path);
        ctx.telemetry := Some(t);
        var url := GetUri(Some(ctx.request));
        if url.Failure? {
          return Some(url.error);
        }
        t := t.(url := Some(url.value));
        t := t.(sdkVersion := sdkVersion);
        ctx.telemetry := Some(t);
        submitted := submitted + [RequestItem(t)];
        if ctx.activity.Some? && ctx.activity.value.operationName == ActivityCreatedByHostingDiagnosticListener {
          ctx.activity := Some(ctx.activity.value.(running := false));
        }
      }
    }

    /** Marks the stored record, if any, as failed and submits an exception record. */
    method OnException(ctx: HttpContext?, exception: string)
      modifies this`submitted, ctx
      ensures ctx != null ==> ctx.statusCode == old(ctx.statusCode) && ctx.requestContext == old(ctx.requestContext)
      ensures ctx != null ==> ctx.activity == old(ctx.activity)
      ensures !enabled ==> submitted == old(submitted) && (ctx != null ==> ctx.telemetry == old(ctx.telemetry))
      ensures enabled ==> submitted == old(submitted) + [ExceptionItem(ExceptionTelemetry(exception, Platform, sdkVersion))]
      ensures enabled && ctx != null ==>
                ctx.telemetry == if old(ctx.telemetry).Some? then Some(Apply(old(ctx.telemetry).value, ExceptionObserved)) else None
    {
      if enabled {
        if ctx != null && ctx.telemetry.Some? {
          ctx.telemetry := Some(ctx.telemetry.value.(success := Some(false)));
        }
        var exceptionTelemetry := ExceptionTelemetry(exception, Platform, "");
        exceptionTelemetry := exceptionTelemetry.(sdkVersion := sdkVersion);
        submitted := submitted + [ExceptionItem(exceptionTelemetry)];
      }
    }
  }
}

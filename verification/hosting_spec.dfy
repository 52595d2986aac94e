/**
 * The rules the hosting listener follows, as functions over values: how a Start works out the
 * trace identity, how the request record is first filled in, how exception and stop events
 * change it, and when the Request-Context response header is written. The handler methods of
 * DiagnosticListeners.HostingDiagnosticListener are proved against these functions.
 */
module HostingSpec {
  import opened Wrappers
  import opened Telemetry
  import opened HttpRequestExtensions

  const RequestIdHeader := "Request-Id"
  const CorrelationContextHeader := "Correlation-Context"
  const StandardRootIdHeader := "x-ms-request-root-id"
  const StandardParentIdHeader := "x-ms-request-id"
  const RequestContextHeader := "Request-Context"
  const RequestContextTargetKey := "appId"

  /** The operation name that marks an activity this listener created (and so must stop). */
  const ActivityCreatedByHostingDiagnosticListener := "ActivityCreatedByHostingDiagnosticListener"

  /**
   * Framework behaviour the listener relies on but that is not part of this model: the root id
   * an activity derives from its parent id (or from its own id when it has none), the splitting
   * of a comma-separated header value, and NameValueHeaderValue.TryParse.
   */
  datatype Framework = Framework(
    rootIdOf: string -> string,
    commaSeparatedValues: string -> seq<string>,
    tryParseNameValue: string -> Option<Pair>)

  // ---------------------------------------------------------------------------------------
  // Working out the trace identity at Start
  // ---------------------------------------------------------------------------------------

  /** An activity named `operationName` after SetParentId (when `parentId` is given), the baggage and Start. */
  function StartedActivity(operationName: string, parentId: Option<string>, baggage: seq<Pair>,
                           newId: string, fw: Framework): Activity
  {
    var root := if parentId.Some? then fw.rootIdOf(parentId.value) else fw.rootIdOf(newId);
    Activity(operationName, newId, parentId, root, baggage, true)
  }

  /** The items of the Correlation-Context header, or none when it is absent. */
  function CorrelationItems(headers: map<string, string>, fw: Framework): seq<string> {
    if CorrelationContextHeader in headers then fw.commaSeparatedValues(headers[CorrelationContextHeader]) else []
  }

  /**
   * The baggage, in enumeration order, of an activity after AddBaggage was called on every item
   * of `items` that parses, in order. Each AddBaggage puts its pair in front of the earlier ones.
   */
  function ParsedBaggage(items: seq<string>, parse: string -> Option<Pair>): seq<Pair>
    decreases |items|
  {
    if items == [] then []
    else
      var earlier := ParsedBaggage(items[..|items| - 1], parse);
      match parse(items[|items| - 1])
      case Some(p) => [p] + earlier
      case None => earlier
  }

  /** Every well-formed Correlation-Context item becomes baggage, and nothing else does. */
  lemma {:induction false} ParsedBaggageMembers(items: seq<string>, parse: string -> Option<Pair>, p: Pair)
    ensures p in ParsedBaggage(items, parse) <==> exists i :: 0 <= i < |items| && parse(items[i]) == Some(p)
    decreases |items|
  {
    if items != [] {
      var n := |items| - 1;
      var init := items[..n];
      ParsedBaggageMembers(init, parse, p);
      if exists i :: 0 <= i < |items| && parse(items[i]) == Some(p) {
        var i :| 0 <= i < |items| && parse(items[i]) == Some(p);
        if i < n {
          assert init[i] == items[i];
        }
      }
      if exists i :: 0 <= i < |init| && parse(init[i]) == Some(p) {
        var i :| 0 <= i < |init| && parse(init[i]) == Some(p);
        assert items[i] == init[i];
      }
    }
  }

  /**
   * Which activity a Start stores in the request's features (`created`), which one the request
   * record is built from (`source`), and whether the identity came from a Request-Id header or
   * an ambient parent (`fromRequestIdHeader`).
   */
  datatype StartPlan = StartPlan(created: Option<Activity>, source: Activity, fromRequestIdHeader: bool)

  /** The identity a legacy BeginRequest works out from the request headers alone. */
  function LegacyStart(headers: map<string, string>, newId: string, fw: Framework): (p: StartPlan)
    ensures p.created == Some(p.source) && p.source.running
    ensures p.source.operationName == ActivityCreatedByHostingDiagnosticListener && p.source.id == newId
    ensures p.fromRequestIdHeader <==> RequestIdHeader in headers
    ensures RequestIdHeader in headers ==>
              && p.source.parentId == Some(headers[RequestIdHeader])
              && p.source.rootId == fw.rootIdOf(headers[RequestIdHeader])
              && p.source.baggage == ParsedBaggage(CorrelationItems(headers, fw), fw.tryParseNameValue)
    ensures RequestIdHeader !in headers && StandardRootIdHeader in headers ==>
              && p.source.parentId == Some(headers[StandardRootIdHeader])
              && p.source.rootId == fw.rootIdOf(headers[StandardRootIdHeader])
              && p.source.baggage == []
    ensures RequestIdHeader !in headers && StandardRootIdHeader !in headers ==>
              p.source.parentId == None && p.source.rootId == fw.rootIdOf(newId) && p.source.baggage == []
  {
    var a :=
      if RequestIdHeader in headers then
        StartedActivity(ActivityCreatedByHostingDiagnosticListener, Some(headers[RequestIdHeader]),
                        ParsedBaggage(CorrelationItems(headers, fw), fw.tryParseNameValue), newId, fw)
      else if StandardRootIdHeader in headers then
        StartedActivity(ActivityCreatedByHostingDiagnosticListener, Some(headers[StandardRootIdHeader]), [], newId, fw)
      else
        StartedActivity(ActivityCreatedByHostingDiagnosticListener, None, [], newId, fw);
    StartPlan(Some(a), a, RequestIdHeader in headers)
  }

  /**
   * The identity a modern HttpRequestIn.Start works out from the ambient activity `current`:
   * an ambient parent means the request is already correlated; otherwise a legacy root-id header
   * makes the listener start its own activity, which becomes the one the record is built from.
   */
  function ModernStart(current: Activity, headers: map<string, string>, newId: string, fw: Framework): (p: StartPlan)
    ensures p.fromRequestIdHeader <==> current.parentId.Some?
    ensures current.parentId.Some? ==> p.created == None && p.source == current
    ensures current.parentId.None? && StandardRootIdHeader in headers ==>
              && p.created == Some(p.source)
              && p.source.operationName == ActivityCreatedByHostingDiagnosticListener
              && p.source.id == newId && p.source.running
              && p.source.parentId == Some(headers[StandardRootIdHeader])
              && p.source.rootId == fw.rootIdOf(headers[StandardRootIdHeader])
    ensures current.parentId.None? && StandardRootIdHeader !in headers ==> p.created == None && p.source == current
  {
    if current.parentId.Some? then StartPlan(None, current, true)
    else if StandardRootIdHeader in headers then
      var a := StartedActivity(ActivityCreatedByHostingDiagnosticListener, Some(headers[StandardRootIdHeader]), [], newId, fw);
      StartPlan(Some(a), a, false)
    else StartPlan(None, current, false)
  }

  // ---------------------------------------------------------------------------------------
  // Copying baggage into the record's properties
  // ---------------------------------------------------------------------------------------

  /** The keys of a list of pairs. */
  function KeysOf(bag: seq<Pair>): set<string> {
    set p | p in bag :: p.0
  }

  /** `props` after visiting `bag` in order and adding each pair whose key is not yet present. */
  function FirstWins(props: map<string, string>, bag: seq<Pair>): map<string, string>
    decreases |bag|
  {
    if bag == [] then props
    else FirstWins(if bag[0].0 in props then props else props[bag[0].0 := bag[0].1], bag[1..])
  }

  /** Every baggage key ends up as a property, and no other key is added. */
  lemma {:induction false} FirstWinsKeys(props: map<string, string>, bag: seq<Pair>)
    ensures FirstWins(props, bag).Keys == props.Keys + KeysOf(bag)
    decreases |bag|
  {
    if bag != [] {
      var next := if bag[0].0 in props then props else props[bag[0].0 := bag[0].1];
      FirstWinsKeys(next, bag[1..]);
      assert bag == [bag[0]] + bag[1..];
      assert KeysOf(bag) == {bag[0].0} + KeysOf(bag[1..]);
    }
  }

  /** A property that is already present is never overwritten by baggage. */
  lemma {:induction false} FirstWinsKeepsExisting(props: map<string, string>, bag: seq<Pair>, k: string)
    requires k in props
    ensures k in FirstWins(props, bag) && FirstWins(props, bag)[k] == props[k]
    decreases |bag|
  {
    if bag != [] {
      var next := if bag[0].0 in props then props else props[bag[0].0 := bag[0].1];
      FirstWinsKeepsExisting(next, bag[1..], k);
    }
  }

  /** A new key takes the value of its first occurrence in the baggage. */
  lemma {:induction false} FirstWinsFirstOccurrence(props: map<string, string>, bag: seq<Pair>, i: nat)
    requires i < |bag| && bag[i].0 !in props
    requires forall j :: 0 <= j < i ==> bag[j].0 != bag[i].0
    ensures bag[i].0 in FirstWins(props, bag) && FirstWins(props, bag)[bag[i].0] == bag[i].1
    decreases |bag|
  {
    var next := if bag[0].0 in props then props else props[bag[0].0 := bag[0].1];
    if i == 0 {
      FirstWinsKeepsExisting(next, bag[1..], bag[0].0);
    } else {
      assert bag[0].0 != bag[i].0;
      assert bag[1..][i - 1] == bag[i];
      FirstWinsFirstOccurrence(next, bag[1..], i - 1);
    }
  }

  /**
   * On a legacy Start with a Request-Id header, a Correlation-Context key that occurs in several
   * well-formed items takes the value of the last of them: the newest baggage is enumerated first.
   */
  lemma {:induction false} CorrelationContextLastItemWins(props: map<string, string>, items: seq<string>,
                                                         parse: string -> Option<Pair>, i: nat)
    requires i < |items| && parse(items[i]).Some? && parse(items[i]).value.0 !in props
    requires forall j :: i < j < |items| && parse(items[j]).Some? ==> parse(items[j]).value.0 != parse(items[i]).value.0
    ensures var p := parse(items[i]).value;
            p.0 in FirstWins(props, ParsedBaggage(items, parse)) && FirstWins(props, ParsedBaggage(items, parse))[p.0] == p.1
    decreases |items|
  {
    var p := parse(items[i]).value;
    var n := |items| - 1;
    var init := items[..n];
    var earlier := ParsedBaggage(init, parse);
    if i == n {
      var next := props[p.0 := p.1];
      assert ParsedBaggage(items, parse) == [p] + earlier;
      assert ([p] + earlier)[1..] == earlier;
      FirstWinsKeepsExisting(next, earlier, p.0);
    } else {
      assert init[i] == items[i];
      forall j | i < j < |init| && parse(init[j]).Some?
        ensures parse(init[j]).value.0 != p.0
      {
        assert init[j] == items[j];
      }
      match parse(items[n])
      case None =>
        assert ParsedBaggage(items, parse) == earlier;
        CorrelationContextLastItemWins(props, init, parse, i);
      case Some(q) =>
        var next := if q.0 in props then props else props[q.0 := q.1];
        assert ParsedBaggage(items, parse) == [q] + earlier;
        assert ([q] + earlier)[1..] == earlier;
        CorrelationContextLastItemWins(next, init, parse, i);
    }
  }

  // ---------------------------------------------------------------------------------------
  // The request record at Start
  // ---------------------------------------------------------------------------------------

  /**
   * The record a Start stores: its identity taken from `activity`, its parent from the activity
   * (identity from a Request-Id header or an ambient parent) or else from the legacy parent-id
   * header, its properties seeded from the baggage in the first case only.
   */
  function InitialTelemetry(activity: Activity, fromRequestIdHeader: bool, headers: map<string, string>,
                            instrumentationKey: string, timestamp: int): (t: RequestTelemetry)
    ensures t.id == activity.id && t.operationId == activity.rootId
    ensures fromRequestIdHeader ==> t.parentId == activity.parentId
    ensures !fromRequestIdHeader && StandardParentIdHeader in headers ==> t.parentId == Some(headers[StandardParentIdHeader])
    ensures !fromRequestIdHeader && StandardParentIdHeader !in headers ==> t.parentId == None
    ensures !fromRequestIdHeader ==> t.properties == map[]
    ensures t.success == None && t.name == "" && t.stopTimestamp == None && t.url == None
    ensures t.startTimestamp == timestamp && t.instrumentationKey == instrumentationKey
  {
    var parentId :=
      if fromRequestIdHeader then activity.parentId
      else if StandardParentIdHeader in headers then Some(headers[StandardParentIdHeader])
      else None;
    var properties := if fromRequestIdHeader then FirstWins(map[], activity.baggage) else map[];
    RequestTelemetry(activity.id, activity.rootId, parentId, properties, instrumentationKey,
                     "", "", None, timestamp, None, "", None, "")
  }

  /** When the identity came from a Request-Id header, the properties are exactly the baggage keys. */
  lemma PropertiesAreBaggageKeys(activity: Activity, headers: map<string, string>, instrumentationKey: string, timestamp: int)
    ensures InitialTelemetry(activity, true, headers, instrumentationKey, timestamp).properties.Keys == KeysOf(activity.baggage)
  {
    FirstWinsKeys(map[], activity.baggage);
  }

  // ---------------------------------------------------------------------------------------
  // Exception and stop events on the record
  // ---------------------------------------------------------------------------------------

  /**
   * What happens to a stored record: an exception is observed, the request stops (the part of
   * EndRequest before the URL is computed), or the record is stamped with URL and SDK version.
   */
  datatype RecordEvent =
    | ExceptionObserved
    | Stopped(timestamp: int, statusCode: int, httpMethod: string, path: string)
    | Stamped(url: string, sdkVersion: string)

  /** The success flag after a stop with `statusCode`: the exit code if unset, else ANDed with it. */
  function CombineSuccess(prior: Option<bool>, statusCode: int): bool {
    match prior
    case None => statusCode < 400
    case Some(b) => b && statusCode < 400
  }

  function Apply(t: RequestTelemetry, e: RecordEvent): (r: RequestTelemetry)
    ensures r.id == t.id && r.operationId == t.operationId && r.parentId == t.parentId
    ensures r.properties == t.properties && r.startTimestamp == t.startTimestamp
    ensures t.success == Some(false) ==> r.success == Some(false)
    ensures r.success == Some(true) ==> e.Stopped? || t.success == Some(true)
    ensures e.ExceptionObserved? ==> r.success == Some(false)
    ensures e.Stopped? ==>
              && (r.success == Some(true) <==> t.success != Some(false) && e.statusCode < 400)
              && r.success.Some?
              && r.responseCode == IntToString(e.statusCode)
              && (t.name != "" ==> r.name == t.name)
              && (t.name == "" ==> r.name == e.httpMethod + " " + e.path)
              && r.stopTimestamp == Some(e.timestamp) && r.httpMethod == e.httpMethod
    ensures e.Stamped? ==> r == t.(url := Some(e.url), sdkVersion := e.sdkVersion)
  {
    match e
    case ExceptionObserved => t.(success := Some(false))
    case Stopped(timestamp, statusCode, httpMethod, path) =>
      t.(stopTimestamp := Some(timestamp),
         responseCode := IntToString(statusCode),
         success := Some(CombineSuccess(t.success, statusCode)),
         name := if t.name == "" then httpMethod + " " + path else t.name,
         httpMethod := httpMethod)
    case Stamped(url, sdkVersion) => t.(url := Some(url), sdkVersion := sdkVersion)
  }

  /** The record after a sequence of events, in order. */
  function ApplyAll(t: RequestTelemetry, es: seq<RecordEvent>): RequestTelemetry
    decreases |es|
  {
    if es == [] then t else ApplyAll(Apply(t, es[0]), es[1..])
  }

  /** Once false, success stays false whatever events follow. */
  lemma {:induction false} FailureIsSticky(t: RequestTelemetry, es: seq<RecordEvent>)
    requires t.success == Some(false)
    ensures ApplyAll(t, es).success == Some(false)
    decreases |es|
  {
    if es != [] {
      FailureIsSticky(Apply(t, es[0]), es[1..]);
    }
  }

  /** Any observed exception leaves the record unsuccessful. */
  lemma {:induction false} ExceptionMeansFailure(t: RequestTelemetry, es: seq<RecordEvent>, i: nat)
    requires i < |es| && es[i].ExceptionObserved?
    ensures ApplyAll(t, es).success == Some(false)
    decreases |es|
  {
    if i == 0 {
      FailureIsSticky(Apply(t, es[0]), es[1..]);
    } else {
      assert es[1..][i - 1] == es[i];
      ExceptionMeansFailure(Apply(t, es[0]), es[1..], i - 1);
    }
  }

  /** Any stop with a status code of 400 or more leaves the record unsuccessful. */
  lemma {:induction false} ErrorStatusMeansFailure(t: RequestTelemetry, es: seq<RecordEvent>, i: nat)
    requires i < |es| && es[i].Stopped? && es[i].statusCode >= 400
    ensures ApplyAll(t, es).success == Some(false)
    decreases |es|
  {
    if i == 0 {
      FailureIsSticky(Apply(t, es[0]), es[1..]);
    } else {
      assert es[1..][i - 1] == es[i];
      ErrorStatusMeansFailure(Apply(t, es[0]), es[1..], i - 1);
    }
  }

  /** No event changes the identity fields of the record. */
  lemma {:induction false} IdentityIsStable(t: RequestTelemetry, es: seq<RecordEvent>)
    ensures var r := ApplyAll(t, es);
            r.id == t.id && r.operationId == t.operationId && r.parentId == t.parentId && r.properties == t.properties
    decreases |es|
  {
    if es != [] {
      IdentityIsStable(Apply(t, es[0]), es[1..]);
    }
  }

  // ---------------------------------------------------------------------------------------
  // The Request-Context response header
  // ---------------------------------------------------------------------------------------

  /** The key/value pairs of a Request-Context header, or none when there is no such header. */
  function PairsOf(requestContext: Option<map<string, string>>): map<string, string> {
    if requestContext.Some? then requestContext.value else map[]
  }

  /** Whether Start may write its correlation id into the Request-Context header. */
  predicate MayWriteRequestContext(hasResponseHeaders: bool, requestContext: Option<map<string, string>>,
                                   instrumentationKey: string, correlationIds: map<string, string>)
  {
    && hasResponseHeaders
    && instrumentationKey != ""
    && (requestContext.None? || RequestContextTargetKey in requestContext.value)
    && instrumentationKey in correlationIds
  }

  /** The Request-Context header after Start's attempt to write the application's correlation id. */
  function RequestContextAfterStart(hasResponseHeaders: bool, requestContext: Option<map<string, string>>,
                                    instrumentationKey: string, correlationIds: map<string, string>): (r: Option<map<string, string>>)
    ensures r != requestContext ==> MayWriteRequestContext(hasResponseHeaders, requestContext, instrumentationKey, correlationIds)
    ensures MayWriteRequestContext(hasResponseHeaders, requestContext, instrumentationKey, correlationIds) ==>
              && r.Some?
              && r.value.Keys == PairsOf(requestContext).Keys + {RequestContextTargetKey}
              && r.value[RequestContextTargetKey] == correlationIds[instrumentationKey]
              && forall k :: k in PairsOf(requestContext) && k != RequestContextTargetKey ==> r.value[k] == PairsOf(requestContext)[k]
  {
    if MayWriteRequestContext(hasResponseHeaders, requestContext, instrumentationKey, correlationIds) then
      Some(PairsOf(requestContext)[RequestContextTargetKey := correlationIds[instrumentationKey]])
    else requestContext
  }

  // ---------------------------------------------------------------------------------------
  // Stop
  // ---------------------------------------------------------------------------------------

  /** The activity slot after Stop: only an activity this listener created is stopped. */
  function StopIfOwned(slot: Option<Activity>): (r: Option<Activity>)
    ensures r.None? <==> slot.None?
    ensures slot.Some? ==> r.value.(running := slot.value.running) == slot.value
    ensures slot.Some? ==>
              (r.value.running <==> slot.value.running && slot.value.operationName != ActivityCreatedByHostingDiagnosticListener)
  {
    match slot
    case Some(a) =>
      if a.operationName == ActivityCreatedByHostingDiagnosticListener then Some(a.(running := false)) else slot
    case None => None
  }

  /** The events EndRequest applies to a stored record: the stop, then the stamp if the URL could be built. */
  function EndEvents(request: HttpRequest, statusCode: int, timestamp: int, sdkVersion: string): (es: seq<RecordEvent>)
    ensures |es| >= 1 && es[0] == Stopped(timestamp, statusCode, request.httpMethod, request.path)
    ensures |es| == 2 <==> UriOf(Some(request)).Success?
    ensures |es| == 2 ==> es[1] == Stamped(UriOf(Some(request)).value, sdkVersion)
    ensures |es| <= 2
  {
    var stop := Stopped(timestamp, statusCode, request.httpMethod, request.path);
    match UriOf(Some(request))
    case Success(url) => [stop, Stamped(url, sdkVersion)]
    case Failure(_) => [stop]
  }

  /** What EndRequest leaves behind: the two feature slots, what it submits and what it throws. */
  datatype EndResult = EndResult(
    telemetry: Option<RequestTelemetry>,
    activity: Option<Activity>,
    sent: seq<SentItem>,
    thrown: Option<UriError>)

  /**
   * EndRequest on a request whose slots hold `telemetry` and `activity`. With the sink enabled
   * and a record present, the record is stopped and, if the URL can be built, stamped, submitted
   * and the listener's own activity stopped; a URL error escapes with nothing submitted.
   */
  function EndRequestResult(enabled: bool, telemetry: Option<RequestTelemetry>, activity: Option<Activity>,
                            request: HttpRequest, statusCode: int, timestamp: int, sdkVersion: string): (o: EndResult)
    ensures !enabled || telemetry.None? ==> o == EndResult(telemetry, activity, [], None)
    ensures |o.sent| <= 1
    ensures o.sent != [] ==>
              && o.thrown.None? && o.telemetry.Some? && o.sent == [RequestItem(o.telemetry.value)]
              && o.activity == StopIfOwned(activity)
              && UriOf(Some(request)).Success?
              && o.telemetry.value.url == Some(UriOf(Some(request)).value)
              && o.telemetry.value.sdkVersion == sdkVersion
              && o.telemetry.value.responseCode == IntToString(statusCode)
              && o.telemetry.value.success.Some?
    ensures enabled && telemetry.Some? ==>
              && o.telemetry.Some?
              && (o.sent != [] <==> UriOf(Some(request)).Success?)
              && (o.thrown.Some? <==> UriOf(Some(request)).Failure?)
              && (o.thrown.Some? ==> o.thrown.value == UriOf(Some(request)).error && o.activity == activity)
  {
    if !enabled || telemetry.None? then EndResult(telemetry, activity, [], None)
    else
      var stopped := Apply(telemetry.value, Stopped(timestamp, statusCode, request.httpMethod, request.path));
      match UriOf(Some(request))
      case Failure(e) => EndResult(Some(stopped), activity, [], Some(e))
      case Success(url) =>
        var done := Apply(stopped, Stamped(url, sdkVersion));
        EndResult(Some(done), StopIfOwned(activity), [RequestItem(done)], None)
  }

  /** With a URL available, EndRequest submits exactly the stopped and stamped record. */
  lemma EndRequestSubmitsStamped(telemetry: RequestTelemetry, activity: Option<Activity>, request: HttpRequest,
                                 statusCode: int, timestamp: int, sdkVersion: string)
    requires UriOf(Some(request)).Success?
    ensures var o := EndRequestResult(true, Some(telemetry), activity, request, statusCode, timestamp, sdkVersion);
            var stopped := Apply(telemetry, Stopped(timestamp, statusCode, request.httpMethod, request.path));
            && o.sent == [RequestItem(Apply(stopped, Stamped(UriOf(Some(request)).value, sdkVersion)))]
            && o.activity == StopIfOwned(activity)
  {
  }

  /** The record EndRequest leaves in the slot is the stored one after the events of EndEvents. */
  lemma EndRequestAppliesEvents(telemetry: RequestTelemetry, activity: Option<Activity>, request: HttpRequest,
                                statusCode: int, timestamp: int, sdkVersion: string)
    ensures EndRequestResult(true, Some(telemetry), activity, request, statusCode, timestamp, sdkVersion).telemetry
         == Some(ApplyAll(telemetry, EndEvents(request, statusCode, timestamp, sdkVersion)))
  {
    var es := EndEvents(request, statusCode, timestamp, sdkVersion);
    var stopped := Apply(telemetry, es[0]);
    assert ApplyAll(telemetry, es) == ApplyAll(stopped, es[1..]);
    if |es| == 2 {
      assert es[1..][1..] == [];
      assert ApplyAll(stopped, es[1..]) == ApplyAll(Apply(stopped, es[1]), []);
    }
  }

}

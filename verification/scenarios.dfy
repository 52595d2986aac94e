/**
 * Whole request lifecycles driven through the listener's handlers, each stating what the
 * telemetry client receives.
 */
module Scenarios {
  import opened Wrappers
  import opened Telemetry
  import opened HttpRequestExtensions
  import opened HostingSpec
  import opened DiagnosticListeners

  /** A request whose scheme starts with a visible character and that has a host has a URL. */
  lemma KnownUri(request: HttpRequest)
    requires |request.scheme| > 0 && !IsWhiteSpace(request.scheme[0]) && request.host != ""
    ensures UriOf(Some(request)) == Success(request.scheme + "://" + request.host + request.path + request.queryString)
  {
  }

  /** The decimal texts of the two status codes the scenarios use. */
  lemma StatusTexts()
    ensures IntToString(500) == "500" && IntToString(200) == "200"
  {
    assert NatToString(500) == NatToString(50) + ['0'] == NatToString(5) + ['0', '0'];
    assert NatToString(200) == NatToString(20) + ['0'] == NatToString(2) + ['0', '0'];
  }

  const ThrowingRequest := HttpRequest("http", "localhost", "/Home/Exception", "", "GET", map[RequestIdHeader := "|root.1"])
  const HostActivity := Activity("Microsoft.AspNetCore.Hosting.HttpRequestIn", "|root.1.a.", Some("|root.1"), "root", [], true)

  /** The stop of the throwing request, on the record the modern Start and the exception left. */
  lemma ThrowingRequestStop()
    ensures var failed := Apply(InitialTelemetry(HostActivity, true, ThrowingRequest.headers, "key", 1), ExceptionObserved);
            var o := EndRequestResult(true, Some(failed), None, ThrowingRequest, 500, 3, "sdk");
            && |o.sent| == 1 && o.sent[0].RequestItem?
            && var r := o.sent[0].request;
            && r.responseCode == "500" && r.success == Some(false)
            && r.name == ThrowingRequest.httpMethod + " " + ThrowingRequest.path && r.parentId == Some("|root.1")
            && r.id == "|root.1.a." && r.operationId == "root"
            && r.url == Some(ThrowingRequest.scheme + "://" + ThrowingRequest.host + ThrowingRequest.path + ThrowingRequest.queryString)
  {
    KnownUri(ThrowingRequest);
    var failed := Apply(InitialTelemetry(HostActivity, true, ThrowingRequest.headers, "key", 1), ExceptionObserved);
    EndRequestSubmitsStamped(failed, None, ThrowingRequest, 500, 3, "sdk");
    StatusTexts();
  }

  /**
   * A modern host serves GET /Home/Exception with a Request-Id header; the controller throws, the
   * host reports the unhandled exception, answers 500 and stops the request. The client receives
   * the exception record first, then one failed request record named "GET /Home/Exception" after method and path.
   */
  method ThrowingControllerOnModernHost(fw: Framework) returns (sent: seq<SentItem>)
    ensures |sent| == 2
    ensures sent[0] == ExceptionItem(ExceptionTelemetry("InvalidOperationException", Platform, "sdk"))
    ensures sent[1].RequestItem?
    ensures var r := sent[1].request;
            && r.responseCode == "500" && r.success == Some(false)
            && r.name == ThrowingRequest.httpMethod + " " + ThrowingRequest.path && r.parentId == Some("|root.1")
            && r.id == "|root.1.a." && r.operationId == "root"
            && r.url == Some(ThrowingRequest.scheme + "://" + ThrowingRequest.host + ThrowingRequest.path + ThrowingRequest.queryString)
  {
    var listener := new HostingDiagnosticListener(true, "sdk", "key", map[], fw, true);
    var ctx := new HttpContext(ThrowingRequest, true, None);
    listener.OnHttpRequestInStart(ctx, Some(HostActivity), "|unused.", 1);
    var thrown := listener.OnHostingException(ctx, "InvalidOperationException", 2);
    ctx.statusCode := 500;
    thrown := listener.OnHttpRequestInStop(ctx, 3);
    ThrowingRequestStop();
    sent := listener.submitted;
  }

  const LegacyRequest := HttpRequest("https", "example.org", "/orders", "?id=7", "POST", map[])

  /** The stop a legacy unhandled exception runs, on the record the legacy Start left. */
  lemma LegacyExceptionStop(fw: Framework)
    ensures var started := InitialTelemetry(LegacyStart(LegacyRequest.headers, "|new.", fw).source, false, LegacyRequest.headers, "key", 1);
            var o := EndRequestResult(true, Some(Apply(started, ExceptionObserved)), LegacyStart(LegacyRequest.headers, "|new.", fw).created,
                                      LegacyRequest, 200, 2, "sdk");
            && |o.sent| == 1 && o.sent[0].RequestItem?
            && var r := o.sent[0].request;
            r.responseCode == "200" && r.success == Some(false) && r.id == "|new." && r.parentId == None
            && o.activity.Some? && !o.activity.value.running
  {
    KnownUri(LegacyRequest);
    var plan := LegacyStart(LegacyRequest.headers, "|new.", fw);
    var failed := Apply(InitialTelemetry(plan.source, false, LegacyRequest.headers, "key", 1), ExceptionObserved);
    EndRequestSubmitsStamped(failed, plan.created, LegacyRequest, 200, 2, "sdk");
    StatusTexts();
  }

  /**
   * A legacy host reports an unhandled exception and sends no EndRequest: the listener ends the
   * request itself, while the response still carries its default status 200, so the record
   * says "200" yet is unsuccessful, and the listener's activity is stopped.
   */
  method UnhandledExceptionOnLegacyHost(fw: Framework) returns (sent: seq<SentItem>, activity: Option<Activity>)
    ensures |sent| == 2
    ensures sent[0] == ExceptionItem(ExceptionTelemetry("InvalidOperationException", Platform, "sdk"))
    ensures sent[1].RequestItem?
    ensures var r := sent[1].request;
            r.responseCode == "200" && r.success == Some(false) && r.id == "|new." && r.parentId == None
    ensures activity.Some? && !activity.value.running
  {
    var listener := new HostingDiagnosticListener(false, "sdk", "key", map[], fw, true);
    var ctx := new HttpContext(LegacyRequest, true, None);
    listener.OnBeginRequest(ctx, "|new.", 1);
    var thrown := listener.OnHostingException(ctx, "InvalidOperationException", 2);
    LegacyExceptionStop(fw);
    sent := listener.submitted;
    activity := ctx.activity;
  }

  const RootRequest := HttpRequest("http", "localhost", "/", "", "GET", map[])

  /**
   * A second stop event for the same request submits the record a second time: the record stays
   * in the request's features after the first stop.
   */
  method RepeatedStopSubmitsAgain(fw: Framework) returns (sent: seq<SentItem>)
    ensures |sent| == 2 && sent[0].RequestItem? && sent[1].RequestItem?
    ensures sent[0].request.id == sent[1].request.id == "|new."
  {
    var listener := new HostingDiagnosticListener(false, "sdk", "key", map[], fw, true);
    var ctx := new HttpContext(RootRequest, true, None);
    KnownUri(RootRequest);
    listener.OnBeginRequest(ctx, "|new.", 1);
    var thrown := listener.OnEndRequest(ctx, 2);
    thrown := listener.OnEndRequest(ctx, 3);
    sent := listener.submitted;
  }

  /** The properties a legacy Start derives from `Correlation-Context: a=1,b=2`. */
  lemma TwoItemCorrelationContext(fw: Framework)
    requires fw.commaSeparatedValues("a=1,b=2") == ["a=1", "b=2"]
    requires fw.tryParseNameValue("a=1") == Some(("a", "1")) && fw.tryParseNameValue("b=2") == Some(("b", "2"))
    ensures FirstWins(map[], ParsedBaggage(["a=1", "b=2"], fw.tryParseNameValue)) == map["a" := "1", "b" := "2"]
  {
    var items := ["a=1", "b=2"];
    assert items[..1] == ["a=1"] && items[..1][..0] == [];
    var bag := [("b", "2"), ("a", "1")];
    assert ParsedBaggage(items, fw.tryParseNameValue) == bag;
    assert bag[1..][1..] == [];
    assert FirstWins(map[], bag) == FirstWins(map["b" := "2"], bag[1..]) == FirstWins(map["b" := "2", "a" := "1"], []);
  }

  /**
   * A legacy Start with `Request-Id: |abc.1` and `Correlation-Context: a=1,b=2` gives the record
   * the parent |abc.1 and the properties a=1 and b=2.
   */
  method CorrelationContextBecomesProperties(fw: Framework) returns (record: RequestTelemetry)
    requires fw.commaSeparatedValues("a=1,b=2") == ["a=1", "b=2"]
    requires fw.tryParseNameValue("a=1") == Some(("a", "1")) && fw.tryParseNameValue("b=2") == Some(("b", "2"))
    ensures record.parentId == Some("|abc.1") && record.operationId == fw.rootIdOf("|abc.1")
    ensures record.properties == map["a" := "1", "b" := "2"]
  {
    var listener := new HostingDiagnosticListener(false, "sdk", "key", map[], fw, true);
    var headers := map[RequestIdHeader := "|abc.1", CorrelationContextHeader := "a=1,b=2"];
    var ctx := new HttpContext(HttpRequest("http", "localhost", "/", "", "GET", headers), true, None);
    listener.OnBeginRequest(ctx, "|abc.1.x.", 1);
    TwoItemCorrelationContext(fw);
    record := ctx.telemetry.value;
  }
}

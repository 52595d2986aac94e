/**
 * The values the hosting listener works with: the trace context (System.Diagnostics.Activity),
 * the request and exception records of the telemetry data contracts, and what the telemetry
 * client has been handed for submission.
 */
module Telemetry {
  import opened Wrappers

  /** A name/value pair, as a baggage item or a parsed header item. */
  type Pair = (string, string)

  /**
   * A started trace context. `baggage` is listed in the order the framework enumerates it
   * (most recently added first); `running` is false once the activity has been stopped.
   */
  datatype Activity = Activity(
    operationName: string,
    id: string,
    parentId: Option<string>,
    rootId: string,
    baggage: seq<Pair>,
    running: bool)

  /** Where an exception was handled, as the exception record reports it. */
  datatype ExceptionHandledAt = Unhandled | UserCode | Platform

  /**
   * The request record. An empty `name` stands for a null or empty name, `success` is the
   * nullable outcome, and the two timestamps are the opaque Stopwatch ticks of Start and Stop.
   */
  datatype RequestTelemetry = RequestTelemetry(
    id: string,
    operationId: string,
    parentId: Option<string>,
    properties: map<string, string>,
    instrumentationKey: string,
    name: string,
    responseCode: string,
    success: Option<bool>,
    startTimestamp: int,
    stopTimestamp: Option<int>,
    httpMethod: string,
    url: Option<string>,
    sdkVersion: string)

  /** The exception record; the exception object itself is opaque and given by its description. */
  datatype ExceptionTelemetry = ExceptionTelemetry(
    exception: string,
    handledAt: ExceptionHandledAt,
    sdkVersion: string)

  /** One item handed to the telemetry client, in submission order. */
  datatype SentItem = RequestItem(request: RequestTelemetry) | ExceptionItem(exception: ExceptionTelemetry)

  // ---------------------------------------------------------------------------------------
  // Decimal text of an integer, as Int32.ToString() writes a status code, and its inverse.
  // ---------------------------------------------------------------------------------------

  predicate IsDigit(c: char) {
    '0' <= c <= '9'
  }

  predicate AllDigits(s: string) {
    forall i :: 0 <= i < |s| ==> IsDigit(s[i])
  }

  function DigitChar(d: nat): (c: char)
    requires d < 10
    ensures IsDigit(c) && c as int - '0' as int == d
  {
    ('0' as int + d) as char
  }

  /** Decimal digits of `n`, most significant first, with no leading zero. */
  function NatToString(n: nat): (s: string)
    ensures |s| >= 1 && AllDigits(s)
    ensures |s| > 1 ==> s[0] != '0'
    decreases n
  {
    if n < 10 then [DigitChar(n)] else NatToString(n / 10) + [DigitChar(n % 10)]
  }

  /** Decimal text of `i`, with a leading '-' for a negative value. */
  function IntToString(i: int): (s: string)
    ensures |s| >= 1
    ensures i >= 0 <==> s[0] != '-'
  {
    if i < 0 then "-" + NatToString(-i) else NatToString(i)
  }

  /** The value of a string of decimal digits. */
  function ParseNat(s: string): nat
    requires AllDigits(s)
  {
    if s == [] then 0 else 10 * ParseNat(s[..|s| - 1]) + (s[|s| - 1] as int - '0' as int)
  }

  /** The value of a decimal text written by IntToString, or None for any other text. */
  function ParseInt(s: string): Option<int> {
    if |s| >= 2 && s[0] == '-' && AllDigits(s[1..]) then Some(0 - ParseNat(s[1..]) as int)
    else if |s| >= 1 && AllDigits(s) then Some(ParseNat(s))
    else None
  }

  lemma {:induction false} NatToStringRoundTrip(n: nat)
    ensures ParseNat(NatToString(n)) == n
    decreases n
  {
    if n >= 10 {
      var s := NatToString(n);
      NatToStringRoundTrip(n / 10);
      assert s[..|s| - 1] == NatToString(n / 10);
    }
  }

  /** The response code text always reads back as the status code it was written from. */
  lemma {:induction false} IntToStringRoundTrip(i: int)
    ensures ParseInt(IntToString(i)) == Some(i)
  {
    var s := IntToString(i);
    if i < 0 {
      var digits := NatToString(-i);
      assert s == "-" + digits;
      assert s[1..] == digits;
      assert s[0] == '-' && |s| >= 2;
      NatToStringRoundTrip(-i);
      assert ParseInt(s) == Some(0 - ParseNat(digits) as int);
    } else {
      NatToStringRoundTrip(i);
      assert s[0] != '-';
    }
  }
}

/**
 * The request facts the listener reads, and GetUri: the absolute URL of a request, assembled
 * from scheme, host, path and query string, with the argument checks that guard it.
 */
module HttpRequestExtensions {
  import opened Wrappers

  /**
   * An inbound request. An empty `host`, `path` or `queryString` is one without a value, and an
   * empty `scheme` stands for a null one. Header names are matched exactly.
   */
  datatype HttpRequest = HttpRequest(
    scheme: string,
    host: string,
    path: string,
    queryString: string,
    httpMethod: string,
    headers: map<string, string>)

  /** The exceptions GetUri throws. */
  datatype UriError = ArgumentNull(paramName: string) | Argument(message: string)

  const SchemeNotSpecified := "Http request Scheme is not specified. This generally occurs because the WebModel for the Request was not properly initialize"
  const HostNotSpecified := "Http request Host is not specified. this generally occurs when Host header is not properly declare"

  /** The characters Char.IsWhiteSpace accepts. */
  predicate IsWhiteSpace(c: char) {
    || '\U{9}' <= c <= '\U{D}'
    || c == ' ' || c == '\U{85}' || c == '\U{A0}' || c == '\U{1680}'
    || '\U{2000}' <= c <= '\U{200A}'
    || c == '\U{2028}' || c == '\U{2029}' || c == '\U{202F}' || c == '\U{205F}' || c == '\U{3000}'
  }

  /** String.IsNullOrWhiteSpace, with the empty string standing for null. */
  predicate IsNullOrWhiteSpace(s: string) {
    forall i :: 0 <= i < |s| ==> IsWhiteSpace(s[i])
  }

  /**
   * What GetUri returns or throws: the concatenation of scheme, "://", host, path and query.
   * A path or query without a value adds nothing.
   */
  function UriOf(request: Option<HttpRequest>): (r: Result<string, UriError>)
    ensures r == Failure(ArgumentNull("request")) <==> request.None?
    ensures r == Failure(Argument(SchemeNotSpecified)) <==>
              request.Some? && IsNullOrWhiteSpace(request.value.scheme)
    ensures r == Failure(Argument(HostNotSpecified)) <==>
              request.Some? && !IsNullOrWhiteSpace(request.value.scheme) && request.value.host == ""
  {
    match request
    case None => Failure(ArgumentNull("request"))
    case Some(q) =>
      if IsNullOrWhiteSpace(q.scheme) then Failure(Argument(SchemeNotSpecified))
      else if q.host == "" then Failure(Argument(HostNotSpecified))
      else Success(q.scheme + "://" + q.host + q.path + q.queryString)
  }

  /**
   * The URL of `request`, built in a buffer the way the source appends to its StringBuilder:
   * scheme, "://", host, then the path and the query string only when they have a value.
   */
  method GetUri(request: Option<HttpRequest>) returns (r: Result<string, UriError>)
    ensures r == UriOf(request)
  {
    if request.None? {
      return Failure(ArgumentNull("request"));
    }
    var q := request.value;
    if IsNullOrWhiteSpace(q.scheme) {
      return Failure(Argument(SchemeNotSpecified));
    }
    if q.host == "" {
      return Failure(Argument(HostNotSpecified));
    }
    var builder: string := [];
    builder := builder + q.scheme;
    builder := builder + "://";
    builder := builder + q.host;
    if q.path != "" {
      builder := builder + q.path;
    }
    assert builder == q.scheme + "://" + q.host + q.path;
    if q.queryString != "" {
      builder := builder + q.queryString;
    }
    assert builder == q.scheme + "://" + q.host + q.path + q.queryString;
    return Success(builder);
  }

  /**
   * The parts of a built URL in order: the scheme, "://", then the host, the path and the
   * query string.
   */
  lemma UriLayout(request: HttpRequest)
    requires UriOf(Some(request)).Success?
    ensures var url := UriOf(Some(request)).value;
            && |url| == |request.scheme| + 3 + |request.host| + |request.path| + |request.queryString|
            && url[..|request.scheme|] == request.scheme
            && url[|request.scheme|..|request.scheme| + 3] == "://"
            && url[|request.scheme| + 3..] == request.host + request.path + request.queryString
  {
  }

  /** The scheme of a URL: every character before the first ':'. */
  function SchemeOf(url: string): (s: string)
    ensures |s| <= |url|
  {
    if url == [] || url[0] == ':' then [] else [url[0]] + SchemeOf(url[1..])
  }

  /** A scheme free of ':' followed by text starting with ':' reads back as that scheme. */
  lemma {:induction false} SchemeOfPrefix(scheme: string, rest: string)
    requires forall i :: 0 <= i < |scheme| ==> scheme[i] != ':'
    requires |rest| > 0 && rest[0] == ':'
    ensures SchemeOf(scheme + rest) == scheme
  {
    if scheme != [] {
      assert (scheme + rest)[1..] == scheme[1..] + rest;
      SchemeOfPrefix(scheme[1..], rest);
    }
  }

  /**
   * The URL GetUri builds gives its scheme back, provided the scheme holds no ':' (which no
   * valid scheme does); what follows "://" is host, path and query.
   */
  lemma {:induction false} UriSchemeRoundTrip(request: HttpRequest)
    requires UriOf(Some(request)).Success?
    requires forall i :: 0 <= i < |request.scheme| ==> request.scheme[i] != ':'
    ensures SchemeOf(UriOf(Some(request)).value) == request.scheme
  {
    var url := UriOf(Some(request)).value;
    var rest := "://" + request.host + request.path + request.queryString;
    assert url == request.scheme + rest;
    SchemeOfPrefix(request.scheme, rest);
  }
}

/**
 * RequestTrackingTelemetryModule: for each incoming HTTP request it creates
 * request telemetry from the current activity, copies W3C trace-context
 * headers into activity tags, reads the caller's application id from the
 * Request-Context header, and back-propagates its own application id in the
 * response. `Activity.Current` and the HTTP context are passed explicitly.
 */
module RequestTracking {
  import opened Wrappers
  import opened Strings
  import Diagnostics
  import opened TelemetryModel

  const RequestContextHeader: string := "Request-Context"
  const ApplicationIdPropertyName: string := "appId"
  const ApplicationIdSchema: string := "cid-v1:"
  const TraceParentHeader: string := "traceparent"
  const TraceStateHeader: string := "tracestate"

  const W3CVersionTag: string := "w3c_version"
  const W3CTraceIdTag: string := "w3c_traceId"
  const W3CSpanIdTag: string := "w3c_spanId"
  const W3CSampledTag: string := "w3c_sampled"
  const W3CTraceStateTag: string := "w3c_tracestate"

  /** The values of one header; a header dictionary never keeps an empty value list. */
  type StringValues = s: seq<string> | |s| > 0 witness [""]

  type Headers = map<string, StringValues>

  datatype TelemetryConfiguration = TelemetryConfiguration(instrumentationKey: Option<string>)

  /** The `TelemetryClient` built from a configuration (transport is outside this model). */
  datatype TelemetryClient = TelemetryClient(configuration: TelemetryConfiguration)

  /** `IApplicationIdProvider`: the application id registered for an instrumentation key. */
  datatype ApplicationIdProvider = ApplicationIdProvider(ids: map<string, string>) {
    function TryGetApplicationId(instrumentationKey: Option<string>): (r: Option<string>)
      ensures r.Some? <==> instrumentationKey.Some? && instrumentationKey.value in ids
    {
      if instrumentationKey.Some? && instrumentationKey.value in ids then Some(ids[instrumentationKey.value])
      else None
    }
  }

  /** The HTTP context of one request: headers, status code and the stored request telemetry feature. */
  class HttpContext {
    var requestHeaders: Headers
    var responseHeaders: Headers
    var statusCode: int
    var requestTelemetry: Telemetry?

    constructor (requestHeaders: Headers)
      ensures this.requestHeaders == requestHeaders && responseHeaders == map[]
      ensures statusCode == 200 && requestTelemetry == null
    {
      this.requestHeaders := requestHeaders;
      responseHeaders := map[];
      statusCode := 200;
      requestTelemetry := null;
    }
  }

  /** `values.FirstOrDefault(h => h.StartsWith(prefix))`. */
  function FirstWithPrefix(values: seq<string>, prefix: string): (r: Option<string>)
    ensures r.Some? ==> r.value in values && StartsWith(r.value, prefix)
    ensures r.None? <==> forall i :: 0 <= i < |values| ==> !StartsWith(values[i], prefix)
    ensures r.Some? ==> exists i :: 0 <= i < |values| && values[i] == r.value &&
                          forall j :: 0 <= j < i ==> !StartsWith(values[j], prefix)
  {
    if values == [] then None
    else if StartsWith(values[0], prefix) then Some(values[0])
    else
      var r := FirstWithPrefix(values[1..], prefix);
      assert forall i :: 0 < i < |values| ==> values[i] == values[1..][i - 1];
      r
  }

  // ---- application id ----

  /**
   * `TryParseApplicationId`, with the null argument treated as "no id" (see
   * `TryParseApplicationIdAsWritten`): succeeds exactly when the pair has one
   * '=', and gives the text after it.
   */
  function TryParseApplicationId(appIdPair: Option<string>): (r: Option<string>)
    ensures r.Some? <==> appIdPair.Some? && Count(appIdPair.value, '=') == 1
    ensures r.Some? ==> ('=' !in r.value &&
      appIdPair.value == Split(appIdPair.value, '=')[0] + "=" + r.value)
  {
    match appIdPair
    case None => None
    case Some(pair) =>
      var kvp := Split(pair, '=');
      if |kvp| == 2 then
        JoinSplit(pair, '=');
        assert Join(kvp, "=") == kvp[0] + "=" + Join(kvp[1..], "=");
        Some(kvp[1])
      else None
  }

  /** What the source's lookup of the caller's id ends in. */
  datatype AppIdLookup = Found(appId: string) | NotFound | NullReferenceThrown

  /** `TryParseApplicationId` as written: `appIdPair.Split('=')` on null throws. */
  function TryParseApplicationIdAsWritten(appIdPair: Option<string>): (r: AppIdLookup)
    ensures r == NullReferenceThrown <==> appIdPair.None?
    ensures appIdPair.Some? ==> (r.Found? <==> TryParseApplicationId(appIdPair).Some?)
    ensures r.Found? ==> TryParseApplicationId(appIdPair) == Some(r.appId)
  {
    match appIdPair
    case None => NullReferenceThrown
    case Some(pair) =>
      var kvp := Split(pair, '=');
      if |kvp| == 2 then Found(kvp[1]) else NotFound
  }

  /** `TryGetAppIdFromRequestHeader` as written, exception included. */
  function TryGetAppIdFromRequestHeaderAsWritten(
    requestHeaders: Headers, provider: ApplicationIdProvider, instrumentationKey: Option<string>): (r: AppIdLookup)
    ensures r == NullReferenceThrown <==>
      RequestContextHeader in requestHeaders &&
      FirstWithPrefix(requestHeaders[RequestContextHeader], ApplicationIdPropertyName).None?
  {
    if RequestContextHeader !in requestHeaders then NotFound
    else
      var headerAppId := FirstWithPrefix(requestHeaders[RequestContextHeader], ApplicationIdPropertyName);
      match TryParseApplicationIdAsWritten(headerAppId)
      case NullReferenceThrown => NullReferenceThrown
      case NotFound => NotFound
      case Found(sender) =>
        match provider.TryGetApplicationId(instrumentationKey)
        case None => NotFound
        case Some(mine) => if ApplicationIdSchema + mine != sender then Found(sender) else NotFound
  }

  /**
   * `TryGetAppIdFromRequestHeader`, corrected: the caller's id from the first
   * Request-Context value starting with "appId", provided it parses, our own id
   * is known, and it is not our own "cid-v1:" id.
   */
  function TryGetAppIdFromRequestHeader(
    requestHeaders: Headers, provider: ApplicationIdProvider, instrumentationKey: Option<string>)
    : (appId: Option<string>)
    ensures appId.Some? ==> RequestContextHeader in requestHeaders
    ensures appId.Some? ==> (provider.TryGetApplicationId(instrumentationKey).Some? &&
      appId.value != ApplicationIdSchema + provider.TryGetApplicationId(instrumentationKey).value)
  {
    if RequestContextHeader !in requestHeaders then None
    else
      var headerAppId := FirstWithPrefix(requestHeaders[RequestContextHeader], ApplicationIdPropertyName);
      match TryParseApplicationId(headerAppId)
      case None => None
      case Some(sender) =>
        match provider.TryGetApplicationId(instrumentationKey)
        case None => None
        case Some(mine) => if ApplicationIdSchema + mine != sender then Some(sender) else None
  }

  /**
   * The source's lookup throws `NullReferenceException` on a Request-Context
   * header that carries no "appId" entry, such as "roleName=frontend".
   */
  lemma RequestContextWithoutAppIdThrows(provider: ApplicationIdProvider, instrumentationKey: Option<string>)
    ensures TryGetAppIdFromRequestHeaderAsWritten(
              map[RequestContextHeader := ["roleName=frontend"]], provider, instrumentationKey) == NullReferenceThrown
  {
    var values := ["roleName=frontend"];
    assert values[0][..5][0] == 'r';
    assert !StartsWith(values[0], ApplicationIdPropertyName);
  }

  /**
   * The corrected lookup gives no source for such a header, and agrees with the
   * source wherever the source does not throw.
   */
  lemma CorrectedLookupAgrees(requestHeaders: Headers, provider: ApplicationIdProvider, instrumentationKey: Option<string>)
    ensures RequestContextHeader in requestHeaders &&
            FirstWithPrefix(requestHeaders[RequestContextHeader], ApplicationIdPropertyName).None? ==>
            TryGetAppIdFromRequestHeader(requestHeaders, provider, instrumentationKey) == None
    ensures match TryGetAppIdFromRequestHeaderAsWritten(requestHeaders, provider, instrumentationKey)
            case NullReferenceThrown => true
            case NotFound => TryGetAppIdFromRequestHeader(requestHeaders, provider, instrumentationKey) == None
            case Found(id) => TryGetAppIdFromRequestHeader(requestHeaders, provider, instrumentationKey) == Some(id)
  {
  }

  /**
   * A Request-Context entry "appId=cid-v1:<id>" names the caller: it becomes the
   * request's source unless it is our own id (the two header tests of the source).
   */
  lemma SourceFromRequestContext(
    requestHeaders: Headers, id: string, provider: ApplicationIdProvider, instrumentationKey: Option<string>)
    requires '=' !in id
    requires RequestContextHeader in requestHeaders
    requires FirstWithPrefix(requestHeaders[RequestContextHeader], ApplicationIdPropertyName) ==
             Some(ApplicationIdPropertyName + "=" + ApplicationIdSchema + id)
    requires provider.TryGetApplicationId(instrumentationKey).Some?
    ensures TryGetAppIdFromRequestHeader(requestHeaders, provider, instrumentationKey) ==
      if provider.TryGetApplicationId(instrumentationKey).value == id then None
      else Some(ApplicationIdSchema + id)
  {
    var mine := provider.TryGetApplicationId(instrumentationKey).value;
    var value := ApplicationIdSchema + id;
    assert '=' !in value by {
      assert forall i :: 0 <= i < |value| ==> value[i] == if i < 7 then ApplicationIdSchema[i] else id[i - 7];
    }
    SplitWithoutSeparator(value, '=');
    assert ApplicationIdPropertyName + "=" + ApplicationIdSchema + id == ApplicationIdPropertyName + ['='] + value;
    SplitAtFirstSeparator(ApplicationIdPropertyName, '=', value);
    if mine != id {
      assert (ApplicationIdSchema + mine)[7..] == mine;
      assert value[7..] == id;
    }
  }

  // ---- response back-propagation ----

  /** `IHeaderDictionary.Append`: the value is added after the existing ones. */
  function Append(headers: Headers, key: string, value: string): (r: Headers)
    ensures key in r && r[key] == (if key in headers then headers[key] else []) + [value]
    ensures forall k :: k != key ==> (k in r <==> k in headers)
    ensures forall k :: k != key && k in headers ==> r[k] == headers[k]
  {
    headers[key := (if key in headers then headers[key] else []) + [value]]
  }

  /** The response headers after `SetAppIdInResponseHeader`. */
  function WithAppIdInResponse(headers: Headers, provider: ApplicationIdProvider, instrumentationKey: Option<string>)
    : (r: Headers)
    ensures (RequestContextHeader in headers &&
             FirstWithPrefix(headers[RequestContextHeader], ApplicationIdPropertyName).Some?) ==> r == headers
    ensures provider.TryGetApplicationId(instrumentationKey).None? ==> r == headers
    ensures (RequestContextHeader !in headers ||
             FirstWithPrefix(headers[RequestContextHeader], ApplicationIdPropertyName).None?) &&
            provider.TryGetApplicationId(instrumentationKey).Some? ==>
      r == Append(headers, RequestContextHeader,
                  ApplicationIdPropertyName + "=" + ApplicationIdSchema + provider.TryGetApplicationId(instrumentationKey).value)
  {
    var existing := if RequestContextHeader in headers then headers[RequestContextHeader] else [];
    if FirstWithPrefix(existing, ApplicationIdPropertyName).Some? then headers
    else match provider.TryGetApplicationId(instrumentationKey)
      case None => headers
      case Some(applicationId) =>
        Append(headers, RequestContextHeader, ApplicationIdPropertyName + "=" + ApplicationIdSchema + applicationId)
  }

  /**
   * Back-propagation round trip: the entry appended to a response is the one the
   * request side recognises, and it names our id, "cid-v1:<id>".
   */
  lemma BackPropagatedEntryParses(headers: Headers, provider: ApplicationIdProvider, instrumentationKey: Option<string>)
    requires RequestContextHeader !in headers
    requires provider.TryGetApplicationId(instrumentationKey).Some?
    requires '=' !in provider.TryGetApplicationId(instrumentationKey).value
    ensures var r := WithAppIdInResponse(headers, provider, instrumentationKey);
      var id := provider.TryGetApplicationId(instrumentationKey).value;
      && RequestContextHeader in r
      && TryParseApplicationId(FirstWithPrefix(r[RequestContextHeader], ApplicationIdPropertyName))
           == Some(ApplicationIdSchema + id)
  {
    var id := provider.TryGetApplicationId(instrumentationKey).value;
    var value := ApplicationIdSchema + id;
    var entry := ApplicationIdPropertyName + "=" + value;
    assert '=' !in value by {
      assert forall i :: 0 <= i < |value| ==> value[i] == if i < 7 then ApplicationIdSchema[i] else id[i - 7];
    }
    assert StartsWith(entry, ApplicationIdPropertyName) by {
      assert entry[..5] == ApplicationIdPropertyName;
    }
    SplitWithoutSeparator(value, '=');
    assert entry == ApplicationIdPropertyName + ['='] + value;
    SplitAtFirstSeparator(ApplicationIdPropertyName, '=', value);
    var r := WithAppIdInResponse(headers, provider, instrumentationKey);
    assert entry == ApplicationIdPropertyName + "=" + ApplicationIdSchema + id;
    assert r[RequestContextHeader] == [] + [entry];
    assert FirstWithPrefix(r[RequestContextHeader], ApplicationIdPropertyName) == Some(entry);
  }

  // ---- W3C trace context ----

  /** The tags `ParseW3CHeaders` adds, in order. */
  function W3CTags(requestHeaders: Headers): seq<Diagnostics.Tag> {
    var parentTags :=
      if TraceParentHeader in requestHeaders then
        var parts := Split(requestHeaders[TraceParentHeader][0], '-');
        if |parts| == 4 then
          [(W3CVersionTag, parts[0]), (W3CTraceIdTag, parts[1]), (W3CSpanIdTag, parts[2]), (W3CSampledTag, parts[3])]
        else []
      else [];
    var stateTags :=
      if TraceStateHeader in requestHeaders then [(W3CTraceStateTag, Join(requestHeaders[TraceStateHeader], ","))]
      else [];
    parentTags + stateTags
  }

  /**
   * The four traceparent tags lose nothing: joined with '-' they give back the
   * header; with no tags, the header did not have exactly four fields.
   */
  lemma W3CTagsRejoin(requestHeaders: Headers)
    requires TraceParentHeader in requestHeaders
    ensures var tags := W3CTags(requestHeaders);
      var traceparent := requestHeaders[TraceParentHeader][0];
      |tags| >= 4 && tags[0].0 == W3CVersionTag ==>
        Join([tags[0].1, tags[1].1, tags[2].1, tags[3].1], "-") == traceparent
    ensures |W3CTags(requestHeaders)| <= 1 ==> Count(requestHeaders[TraceParentHeader][0], '-') != 3
  {
    var traceparent := requestHeaders[TraceParentHeader][0];
    var parts := Split(traceparent, '-');
    JoinSplit(traceparent, '-');
    if |parts| == 4 {
      assert parts == [parts[0], parts[1], parts[2], parts[3]];
    }
  }

  /**
   * A traceparent built from four '-'-free fields, as in "00-<trace-id>-<span-id>-01",
   * yields exactly those fields as the version, trace-id, span-id and sampled tags,
   * in that order, followed by the tracestate values joined with ','.
   */
  lemma W3CTagsFromFields(requestHeaders: Headers, version: string, traceId: string, spanId: string, sampled: string)
    requires '-' !in version && '-' !in traceId && '-' !in spanId && '-' !in sampled
    requires TraceParentHeader in requestHeaders
    requires requestHeaders[TraceParentHeader][0] == Join([version, traceId, spanId, sampled], "-")
    ensures |W3CTags(requestHeaders)| >= 4 && W3CTags(requestHeaders)[..4] ==
      [(W3CVersionTag, version), (W3CTraceIdTag, traceId), (W3CSpanIdTag, spanId), (W3CSampledTag, sampled)]
    ensures TraceStateHeader in requestHeaders ==>
      |W3CTags(requestHeaders)| == 5 &&
      W3CTags(requestHeaders)[4] == (W3CTraceStateTag, Join(requestHeaders[TraceStateHeader], ","))
    ensures TraceStateHeader !in requestHeaders ==> |W3CTags(requestHeaders)| == 4
  {
    SplitJoin([version, traceId, spanId, sampled], '-');
  }

  /** `ParseW3CHeaders`: appends the W3C tags to the activity. */
  method ParseW3CHeaders(requestHeaders: Headers, currentActivity: Diagnostics.Activity)
    modifies currentActivity`tags
    ensures currentActivity.tags == old(currentActivity.tags) + W3CTags(requestHeaders)
  {
    if TraceParentHeader in requestHeaders {
      var traceparent := requestHeaders[TraceParentHeader][0];
      var parts := Split(traceparent, '-');
      if |parts| == 4 {
        currentActivity.AddTag(W3CVersionTag, parts[0]);
        currentActivity.AddTag(W3CTraceIdTag, parts[1]);
        currentActivity.AddTag(W3CSpanIdTag, parts[2]);
        currentActivity.AddTag(W3CSampledTag, parts[3]);
      }
    }
    if TraceStateHeader in requestHeaders {
      currentActivity.AddTag(W3CTraceStateTag, Join(requestHeaders[TraceStateHeader], ","));
    }
  }

  /** `ResponseCode` is the status code's decimal text, which reads back as the code. */
  lemma ResponseCodeReadsBack(statusCode: nat)
    ensures IntToString(statusCode) == NatToDecimal(statusCode)
    ensures DecimalValue(IntToString(statusCode)) == statusCode
  {
    NatToDecimalRoundTrip(statusCode);
  }

  class RequestTrackingTelemetryModule {
    const applicationIdProvider: Option<ApplicationIdProvider>
    const enableResponseHeaderBackPropagation: bool
    var telemetryClient: Option<TelemetryClient>
    var instrumentationKey: Option<string>
    /** Whether the module is subscribed to the ASP.NET Core diagnostic listener. */
    var subscribed: bool
    var isInitialized: bool

    constructor (applicationIdProvider: Option<ApplicationIdProvider>, enableResponseHeaderBackPropagation: bool)
      ensures this.applicationIdProvider == applicationIdProvider
      ensures this.enableResponseHeaderBackPropagation == enableResponseHeaderBackPropagation
      ensures telemetryClient == None && instrumentationKey == None && !subscribed && !isInitialized
    {
      this.applicationIdProvider := applicationIdProvider;
      this.enableResponseHeaderBackPropagation := enableResponseHeaderBackPropagation;
      telemetryClient, instrumentationKey := None, None;
      subscribed, isInitialized := false, false;
    }

    /** `Initialize`: takes effect once; later calls change nothing. */
    method Initialize(configuration: TelemetryConfiguration)
      modifies this
      ensures old(isInitialized) ==> unchanged(this)
      ensures !old(isInitialized) ==>
        && instrumentationKey == configuration.instrumentationKey
        && telemetryClient == Some(TelemetryClient(configuration))
        && subscribed && isInitialized
    {
      if !isInitialized {
        instrumentationKey := configuration.instrumentationKey;
        telemetryClient := Some(TelemetryClient(configuration));
        subscribed := true;
        isInitialized := true;
      }
    }

    /** The caller's id for a request, looked up only when there is a provider. */
    function SourceFor(requestHeaders: Headers): (r: Option<string>)
      reads this
      ensures applicationIdProvider.None? ==> r == None
      ensures applicationIdProvider.Some? ==>
        r == TryGetAppIdFromRequestHeader(requestHeaders, applicationIdProvider.value, instrumentationKey)
    {
      if applicationIdProvider.Some? then
        TryGetAppIdFromRequestHeader(requestHeaders, applicationIdProvider.value, instrumentationKey)
      else None
    }

    /**
     * `CreateRequestTelemetry`: ids from the activity, the baggage copied with the
     * first occurrence of a key winning, and the caller's id as source.
     */
    method CreateRequestTelemetry(requestHeaders: Headers, currentActivity: Diagnostics.Activity)
      returns (t: Telemetry)
      ensures fresh(t) && t.kind == Request
      ensures t.id == currentActivity.id
      ensures t.operationParentId == currentActivity.parentId && t.operationId == currentActivity.rootId
      ensures t.properties == AddMissing(map[], currentActivity.baggage)
      ensures t.source == SourceFor(requestHeaders)
      ensures t.operationName == None && t.name == None
      ensures t.responseCode == None && t.success == None
      ensures t.roleInstance == None && t.locationIp == None
    {
      t := new Telemetry(Request);
      t.id := currentActivity.id;
      t.operationParentId := currentActivity.parentId;
      t.operationId := currentActivity.rootId;
      t.properties := CopyMissing(t.properties, currentActivity.baggage);
      if applicationIdProvider.Some? {
        var appId := TryGetAppIdFromRequestHeader(requestHeaders, applicationIdProvider.value, instrumentationKey);
        if appId.Some? {
          t.source := appId;
        }
      }
    }

    /** `SetAppIdInResponseHeader`. */
    method SetAppIdInResponseHeader(httpContext: HttpContext)
      requires applicationIdProvider.Some?
      modifies httpContext`responseHeaders
      ensures httpContext.responseHeaders ==
        WithAppIdInResponse(old(httpContext.responseHeaders), applicationIdProvider.value, instrumentationKey)
    {
      var headers := httpContext.responseHeaders;
      var existing := if RequestContextHeader in headers then headers[RequestContextHeader] else [];
      if FirstWithPrefix(existing, ApplicationIdPropertyName).None? {
        var applicationId := applicationIdProvider.value.TryGetApplicationId(instrumentationKey);
        if applicationId.Some? {
          httpContext.responseHeaders := Append(headers, RequestContextHeader,
            ApplicationIdPropertyName + "=" + ApplicationIdSchema + applicationId.value);
        }
      }
    }

    /**
     * `OnHttpRequestInStart`: nothing without a context and a current activity;
     * otherwise stores new request telemetry, tags the activity with the W3C
     * headers, and touches the response headers only when a provider exists and
     * back-propagation is enabled.
     */
    method OnHttpRequestInStart(httpContext: HttpContext?, currentActivity: Diagnostics.Activity?)
      modifies httpContext, currentActivity
      ensures httpContext == null || currentActivity == null ==>
        (httpContext != null ==> unchanged(httpContext)) && (currentActivity != null ==> unchanged(currentActivity))
      ensures httpContext != null && currentActivity != null ==>
        && httpContext.requestTelemetry != null && fresh(httpContext.requestTelemetry)
        && httpContext.requestTelemetry.kind == Request
        && httpContext.requestTelemetry.id == old(currentActivity.id)
        && httpContext.requestTelemetry.operationParentId == old(currentActivity.parentId)
        && httpContext.requestTelemetry.operationId == old(currentActivity.rootId)
        && httpContext.requestTelemetry.properties == AddMissing(map[], old(currentActivity.baggage))
        && httpContext.requestTelemetry.source == SourceFor(old(httpContext.requestHeaders))
        && httpContext.requestTelemetry.operationName == None && httpContext.requestTelemetry.name == None
        && httpContext.requestTelemetry.responseCode == None && httpContext.requestTelemetry.success == None
        && httpContext.requestTelemetry.roleInstance == None && httpContext.requestTelemetry.locationIp == None
        && currentActivity.id == old(currentActivity.id) && currentActivity.rootId == old(currentActivity.rootId)
        && currentActivity.tags == old(currentActivity.tags) + W3CTags(old(httpContext.requestHeaders))
        && currentActivity.baggage == old(currentActivity.baggage)
        && currentActivity.parentId == old(currentActivity.parentId)
        && httpContext.requestHeaders == old(httpContext.requestHeaders)
        && httpContext.statusCode == old(httpContext.statusCode)
        && httpContext.responseHeaders ==
             if applicationIdProvider.Some? && enableResponseHeaderBackPropagation
             then WithAppIdInResponse(old(httpContext.responseHeaders), applicationIdProvider.value, instrumentationKey)
             else old(httpContext.responseHeaders)
    {
      if httpContext != null && currentActivity != null {
        var t := CreateRequestTelemetry(httpContext.requestHeaders, currentActivity);
        httpContext.requestTelemetry := t;
        ParseW3CHeaders(httpContext.requestHeaders, currentActivity);
        if applicationIdProvider.Some? && enableResponseHeaderBackPropagation {
          SetAppIdInResponseHeader(httpContext);
        }
      }
    }

    /**
     * `OnHttpRequestInStop`: nothing without stored request telemetry; otherwise
     * the response code is the status as text and success means a status below 400.
     */
    method OnHttpRequestInStop(httpContext: HttpContext?)
      modifies if httpContext != null && httpContext.requestTelemetry != null then {httpContext.requestTelemetry} else {}
      ensures httpContext != null && httpContext.requestTelemetry != null ==>
        && httpContext.requestTelemetry.responseCode == Some(IntToString(httpContext.statusCode))
        && httpContext.requestTelemetry.success == Some(httpContext.statusCode < 400)
        && httpContext.requestTelemetry.properties == old(httpContext.requestTelemetry.properties)
        && httpContext.requestTelemetry.source == old(httpContext.requestTelemetry.source)
        && httpContext.requestTelemetry.id == old(httpContext.requestTelemetry.id)
        && httpContext.requestTelemetry.operationId == old(httpContext.requestTelemetry.operationId)
        && httpContext.requestTelemetry.operationParentId == old(httpContext.requestTelemetry.operationParentId)
        && httpContext.requestTelemetry.operationName == old(httpContext.requestTelemetry.operationName)
        && httpContext.requestTelemetry.name == old(httpContext.requestTelemetry.name)
        && httpContext.requestTelemetry.roleInstance == old(httpContext.requestTelemetry.roleInstance)
        && httpContext.requestTelemetry.locationIp == old(httpContext.requestTelemetry.locationIp)
    {
      if httpContext == null || httpContext.requestTelemetry == null {
        return;
      }
      var requestTelemetry := httpContext.requestTelemetry;
      requestTelemetry.responseCode := Some(IntToString(httpContext.statusCode));
      requestTelemetry.success := Some(httpContext.statusCode < 400);
    }
  }
}

/**
 * QueueCausalityManager: embeds the invoking function's id and its W3C trace
 * context in a JSON queue message under three reserved keys, and reads them
 * back from any message, degrading to "unknown" on every malformed input.
 */
module QueueCausality {
  import opened Wrappers
  import opened Strings
  import opened Json
  import Guids

  const ParentGuidFieldName: string := "$AzureWebJobsParentId"
  const TraceparentFieldName: string := "$AzureWebJobsTraceparent"
  const TracestateFieldName: string := "$AzureWebJobsTracestate"

  /** A queue message as the codec sees it: `TryGetAsString()` gives its text, or null. */
  datatype QueueMessage = QueueMessage(asString: Option<string>)

  /** The payload fields after `SetOwner(owner, token)`. */
  function WithOwner(fields: map<string, Json>, owner: Guids.Guid): (r: map<string, Json>)
    ensures owner == Guids.Empty ==> r == fields
    ensures owner != Guids.Empty ==>
      ParentGuidFieldName in r && r[ParentGuidFieldName] == JString(Guids.ToString(owner))
    ensures forall k :: k != ParentGuidFieldName ==> (k in r <==> k in fields)
    ensures forall k :: k != ParentGuidFieldName && k in fields ==> r[k] == fields[k]
  {
    if owner != Guids.Empty then fields[ParentGuidFieldName := JString(Guids.ToString(owner))] else fields
  }

  /** `SetOwner`: a null token is an `ArgumentNullException`; otherwise the token becomes `WithOwner`. */
  method SetOwner(functionOwner: Guids.Guid, token: JObject?) returns (outcome: Outcome)
    modifies token
    ensures token == null <==> outcome == Threw(ArgumentNull("token"))
    ensures token != null ==> outcome == Done && token.fields == WithOwner(old(token.fields), functionOwner)
  {
    if token == null {
      return Threw(ArgumentNull("token"));
    }
    if functionOwner != Guids.Empty {
      token.Set(ParentGuidFieldName, JString(Guids.ToString(functionOwner)));
    }
    return Done;
  }

  /** The payload fields after `SetTraceContext(traceparent, tracestate, token)`. */
  function WithTraceContext(fields: map<string, Json>, traceparent: Option<string>, tracestate: Option<string>)
    : (r: map<string, Json>)
    ensures IsNullOrEmpty(traceparent) ==> r == fields
    ensures !IsNullOrEmpty(traceparent) ==>
      TraceparentFieldName in r && r[TraceparentFieldName] == JString(traceparent.value)
    ensures !IsNullOrEmpty(traceparent) && !IsNullOrEmpty(tracestate) ==>
      TracestateFieldName in r && r[TracestateFieldName] == JString(tracestate.value)
    ensures IsNullOrEmpty(tracestate) ==> (TracestateFieldName in r <==> TracestateFieldName in fields)
    ensures IsNullOrEmpty(tracestate) && TracestateFieldName in fields ==>
      r[TracestateFieldName] == fields[TracestateFieldName]
    ensures forall k :: k != TraceparentFieldName && k != TracestateFieldName ==> (k in r <==> k in fields)
    ensures forall k :: k != TraceparentFieldName && k != TracestateFieldName && k in fields ==> r[k] == fields[k]
  {
    if IsNullOrEmpty(traceparent) then fields
    else
      var withParent := fields[TraceparentFieldName := JString(traceparent.value)];
      if IsNullOrEmpty(tracestate) then withParent
      else withParent[TracestateFieldName := JString(tracestate.value)]
  }

  /** `SetTraceContext`: a null token is an `ArgumentNullException`; otherwise the token becomes `WithTraceContext`. */
  method SetTraceContext(traceparent: Option<string>, tracestate: Option<string>, token: JObject?)
    returns (outcome: Outcome)
    modifies token
    ensures token == null <==> outcome == Threw(ArgumentNull("token"))
    ensures token != null ==>
      outcome == Done && token.fields == WithTraceContext(old(token.fields), traceparent, tracestate)
  {
    if token == null {
      return Threw(ArgumentNull("token"));
    }
    if !IsNullOrEmpty(traceparent) {
      token.Set(TraceparentFieldName, JString(traceparent.value));
      if !IsNullOrEmpty(tracestate) {
        token.Set(TracestateFieldName, JString(tracestate.value));
      }
    }
    return Done;
  }

  /** The string held under `key`, provided the message text parses to an object holding a JSON string there. */
  function StringField(codec: JsonCodec, msg: QueueMessage, key: string): (r: Option<string>)
    ensures r.Some? ==> msg.asString.Some? && codec.parse(msg.asString.value).Parsed?
    ensures r.Some? ==> var fields := codec.parse(msg.asString.value).fields;
      key in fields && fields[key] == JString(r.value)
  {
    match msg.asString
    case None => None
    case Some(text) =>
      match codec.parse(text)
      case ParseFailed => None
      case ParsedNull => None
      case Parsed(json) =>
        if key in json && json[key].JString? then Some(json[key].str) else None
  }

  /**
   * `GetOwner`: the parent id of a message, or null when the text is null, does
   * not parse, parses to null, lacks the key, holds a non-string there, or holds
   * a string that is not a Guid. Never an exception.
   */
  function GetOwner(codec: JsonCodec, msg: QueueMessage): (r: Option<Guids.Guid>)
    ensures r.Some? <==> StringField(codec, msg, ParentGuidFieldName).Some? &&
                         Guids.TryParse(StringField(codec, msg, ParentGuidFieldName).value).Some?
    ensures r.Some? ==> Guids.TryParse(StringField(codec, msg, ParentGuidFieldName).value) == r
  {
    match StringField(codec, msg, ParentGuidFieldName)
    case None => None
    case Some(val) => Guids.TryParse(val)
  }

  /**
   * `GetTraceContext`: (traceparent, tracestate); both null unless the traceparent
   * key holds a JSON string; tracestate only when its key holds a string too.
   */
  function GetTraceContext(codec: JsonCodec, msg: QueueMessage): (r: (Option<string>, Option<string>))
    ensures r.1.Some? ==> r.0.Some?
    ensures r.0 == StringField(codec, msg, TraceparentFieldName)
    ensures r.0.Some? ==> r.1 == StringField(codec, msg, TracestateFieldName)
  {
    match StringField(codec, msg, TraceparentFieldName)
    case None => (None, None)
    case Some(traceparent) => (Some(traceparent), StringField(codec, msg, TracestateFieldName))
  }

  /** The message a producer sends after stamping `fields` into its payload. */
  function Send(codec: JsonCodec, fields: map<string, Json>): QueueMessage {
    QueueMessage(Some(codec.serialize(fields)))
  }

  /**
   * Round trip of the parent id: a non-empty owner written with `SetOwner` is read
   * back by `GetOwner`, whatever else the payload holds; the empty Guid writes
   * nothing, so a payload without the key still reads as unknown.
   */
  lemma OwnerRoundTrip(codec: JsonCodec, fields: map<string, Json>, owner: Guids.Guid)
    requires RoundTrips(codec)
    ensures owner != Guids.Empty ==> GetOwner(codec, Send(codec, WithOwner(fields, owner))) == Some(owner)
    ensures owner == Guids.Empty && ParentGuidFieldName !in fields ==>
      GetOwner(codec, Send(codec, WithOwner(fields, owner))) == None
  {
    var written := WithOwner(fields, owner);
    assert codec.parse(codec.serialize(written)) == Parsed(written);
    Guids.TryParseToString(owner);
  }

  /**
   * Round trip of the trace context on a payload without the trace keys (such as `{}`):
   * (tp, ts) when both are non-empty, (tp, null) when only tracestate is empty,
   * (null, null) when traceparent is empty.
   */
  lemma TraceContextRoundTrip(codec: JsonCodec, fields: map<string, Json>, tp: Option<string>, ts: Option<string>)
    requires RoundTrips(codec)
    requires TraceparentFieldName !in fields && TracestateFieldName !in fields
    ensures GetTraceContext(codec, Send(codec, WithTraceContext(fields, tp, ts))) ==
      if IsNullOrEmpty(tp) then (None, None)
      else if IsNullOrEmpty(ts) then (tp, None)
      else (tp, ts)
  {
    var written := WithTraceContext(fields, tp, ts);
    assert codec.parse(codec.serialize(written)) == Parsed(written);
  }

  /** Stamping a trace context never changes the parent id a reader finds. */
  lemma TraceContextKeepsOwner(codec: JsonCodec, fields: map<string, Json>, tp: Option<string>, ts: Option<string>)
    requires RoundTrips(codec)
    ensures GetOwner(codec, Send(codec, WithTraceContext(fields, tp, ts))) == GetOwner(codec, Send(codec, fields))
  {
    var written := WithTraceContext(fields, tp, ts);
    assert codec.parse(codec.serialize(written)) == Parsed(written);
    assert codec.parse(codec.serialize(fields)) == Parsed(fields);
  }

  /** Stamping a parent id never changes the trace context a reader finds. */
  lemma OwnerKeepsTraceContext(codec: JsonCodec, fields: map<string, Json>, owner: Guids.Guid)
    requires RoundTrips(codec)
    ensures GetTraceContext(codec, Send(codec, WithOwner(fields, owner))) == GetTraceContext(codec, Send(codec, fields))
  {
    var written := WithOwner(fields, owner);
    assert codec.parse(codec.serialize(written)) == Parsed(written);
    assert codec.parse(codec.serialize(fields)) == Parsed(fields);
  }
}

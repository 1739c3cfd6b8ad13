/**
 * QueueTriggerExecutor: turns one queue message into one call of the inner
 * executor, linking a fresh activity to the parent id the message carries.
 */
module QueueTriggerExecution {
  import opened Wrappers
  import opened Json
  import Guids
  import Diagnostics
  import QueueCausality
  import opened Executors

  const ActivityName: string := "BlobQueueTriggerExecutor"

  /** The parent id given to the activity: the string form of the owner, when there is one. */
  function ParentIdFor(owner: Option<Guids.Guid>): (r: Option<string>)
    ensures r.Some? <==> owner.Some?
    ensures r.Some? ==> Guids.TryParse(r.value) == owner
  {
    match owner
    case None => None
    case Some(g) => Guids.TryParseToString(g); Some(Guids.ToString(g))
  }

  class QueueTriggerExecutor {
    const innerExecutor: TriggeredFunctionExecutor<QueueCausality.QueueMessage>
    /** The JSON library the message text is read with. */
    const codec: JsonCodec

    constructor (innerExecutor: TriggeredFunctionExecutor<QueueCausality.QueueMessage>, codec: JsonCodec)
      ensures this.innerExecutor == innerExecutor && this.codec == codec
    {
      this.innerExecutor := innerExecutor;
      this.codec := codec;
    }

    /**
     * `ExecuteAsync`: reads only the parent id (never the trace context), gives a new
     * activity that parent exactly when there is one, and delegates exactly once,
     * with the same token, returning the inner result unchanged.
     */
    method ExecuteAsync(value: QueueCausality.QueueMessage, cancellationToken: CancellationToken)
      returns (r: FunctionResult)
      modifies innerExecutor
      ensures |innerExecutor.calls| == |old(innerExecutor.calls)| + 1
      ensures innerExecutor.calls[..|old(innerExecutor.calls)|] == old(innerExecutor.calls)
      ensures var call := innerExecutor.calls[|innerExecutor.calls| - 1];
        && call.token == cancellationToken
        && call.result == r
        && r == innerExecutor.respond(call.input, cancellationToken)
        && call.input.TriggerValue == value
        && call.input.ParentId == None
        && call.input.ParentActivity != null
        && fresh(call.input.ParentActivity)
        && call.input.ParentActivity.operationName == ActivityName
        && call.input.ParentActivity.parentId == ParentIdFor(QueueCausality.GetOwner(codec, value))
        && call.input.ParentActivity.tags == [] && call.input.ParentActivity.baggage == []
    {
      var parentId := QueueCausality.GetOwner(codec, value);
      var activity := new Diagnostics.Activity(ActivityName);
      if parentId.Some? {
        activity.SetParentId(Guids.ToString(parentId.value));
      }
      var input := TriggeredFunctionData(None, activity, value);
      r := innerExecutor.TryExecuteAsync(input, cancellationToken);
    }
  }

  /**
   * End to end across one hop: a message whose producer stamped a non-empty owner
   * with `SetOwner` starts an activity whose parent is that owner's string form.
   */
  lemma ProducerOwnerBecomesActivityParent(codec: JsonCodec, fields: map<string, Json>, owner: Guids.Guid)
    requires RoundTrips(codec)
    requires owner != Guids.Empty
    ensures ParentIdFor(QueueCausality.GetOwner(codec, QueueCausality.Send(codec, QueueCausality.WithOwner(fields, owner))))
      == Some(Guids.ToString(owner))
  {
    QueueCausality.OwnerRoundTrip(codec, fields, owner);
  }

  /**
   * A foreign payload without the parent key (such as {"msg":"123"}), or one
   * stamped only with a trace context, gives the activity no parent.
   */
  lemma ForeignPayloadHasNoParent(codec: JsonCodec, fields: map<string, Json>, tp: Option<string>, ts: Option<string>)
    requires RoundTrips(codec)
    requires QueueCausality.ParentGuidFieldName !in fields
    ensures ParentIdFor(QueueCausality.GetOwner(codec, QueueCausality.Send(codec, fields))) == None
    ensures ParentIdFor(QueueCausality.GetOwner(codec,
              QueueCausality.Send(codec, QueueCausality.WithTraceContext(fields, tp, ts)))) == None
  {
    QueueCausality.TraceContextKeepsOwner(codec, fields, tp, ts);
    assert codec.parse(codec.serialize(fields)) == Parsed(fields);
  }
}

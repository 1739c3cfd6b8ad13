/**
 * The invocation records of the host: `FunctionInstance` (one concrete
 * invocation), `TriggeredFunctionData` (what a trigger hands to the function
 * executor), the executor's result, and the injected
 * `ITriggeredFunctionExecutor`, which records every call made to it.
 */
module Executors {
  import opened Wrappers
  import Guids
  import Diagnostics

  /** Why a function runs (`ExecutionReason`). */
  datatype ExecutionReason = AutomaticTrigger | HostCall | Dashboard | Portal

  /** Opaque collaborators: compared by reference, as in the source. */
  class BindingSource {
    constructor () {}
  }
  class FunctionInvoker {
    constructor () {}
  }

  /** Static metadata of the function being invoked. */
  datatype FunctionDescriptor = FunctionDescriptor(shortName: string, fullName: string)

  /**
   * `FunctionInstance`: every field is readonly and set once by the constructor,
   * so the instance is a value; each accessor is the destructor of the same name.
   */
  datatype FunctionInstance = FunctionInstance(
    Id: Guids.Guid,
    TriggerDetails: Option<map<string, string>>,
    ParentId: Option<Guids.Guid>,
    Traceparent: Option<string>,
    Tracestate: Option<string>,
    Reason: ExecutionReason,
    BindingSource: BindingSource?,
    Invoker: FunctionInvoker?,
    FunctionDescriptor: Option<FunctionDescriptor>)

  /** Each accessor returns exactly its constructor argument, null included. */
  lemma FunctionInstanceAccessors(
    id: Guids.Guid, triggerDetails: Option<map<string, string>>, parentId: Option<Guids.Guid>,
    traceparent: Option<string>, tracestate: Option<string>, reason: ExecutionReason,
    bindingSource: BindingSource?, invoker: FunctionInvoker?, descriptor: Option<FunctionDescriptor>)
    ensures var fi := FunctionInstance(id, triggerDetails, parentId, traceparent, tracestate, reason,
                                       bindingSource, invoker, descriptor);
      && fi.Id == id && fi.TriggerDetails == triggerDetails && fi.ParentId == parentId
      && fi.Traceparent == traceparent && fi.Tracestate == tracestate && fi.Reason == reason
      && fi.BindingSource == bindingSource && fi.Invoker == invoker && fi.FunctionDescriptor == descriptor
  {
  }

  /** `TriggeredFunctionData`: the obsolete `ParentId`, the parent activity and the trigger value. */
  datatype TriggeredFunctionData<V> = TriggeredFunctionData(
    ParentId: Option<Guids.Guid>,
    ParentActivity: Diagnostics.Activity?,
    TriggerValue: V)

  datatype CancellationToken = CancellationToken(source: nat, isCancellationRequested: bool)

  /** `FunctionResult`: success, or the exception the invocation failed with. */
  datatype FunctionResult = FunctionResult(Succeeded: bool, Exception: Option<string>)

  /** One call received by an inner executor, with the result it gave. */
  datatype Call<V> = Call(input: TriggeredFunctionData<V>, token: CancellationToken, result: FunctionResult)

  /**
   * The injected `ITriggeredFunctionExecutor`. What it answers is outside this
   * model and given by `respond`; `calls` records what it was asked.
   */
  class TriggeredFunctionExecutor<V> {
    const respond: (TriggeredFunctionData<V>, CancellationToken) -> FunctionResult
    var calls: seq<Call<V>>

    constructor (respond: (TriggeredFunctionData<V>, CancellationToken) -> FunctionResult)
      ensures this.respond == respond && calls == []
    {
      this.respond := respond;
      calls := [];
    }

    /** `TryExecuteAsync`: records the call and answers it. */
    method TryExecuteAsync(input: TriggeredFunctionData<V>, token: CancellationToken) returns (r: FunctionResult)
      modifies this
      ensures r == respond(input, token)
      ensures calls == old(calls) + [Call(input, token, r)]
    {
      r := respond(input, token);
      calls := calls + [Call(input, token, r)];
    }
  }
}

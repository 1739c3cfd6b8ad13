# Causality, blob binding and telemetry glue of the Azure WebJobs SDK, in Dafny

This project models the parts of the Azure WebJobs SDK that carry causality between function invocations, and proves properties of them:

- **Queue causality codec** (`QueueCausality`). `QueueCausalityManager` stamps the invoking function's id and its W3C trace context into a JSON queue message under `$AzureWebJobsParentId`, `$AzureWebJobsTraceparent` and `$AzureWebJobsTracestate`. Reading them back never throws. The proofs cover the round trips, and show that neither stamp disturbs the other.
- **Queue trigger executor** (`QueueTriggerExecution`, `Executors`, `Diagnostics`). `QueueTriggerExecutor` turns one message into one call of the inner executor. The call carries a fresh `Activity` whose parent is the message's owner. `FunctionInstance` and `TriggeredFunctionData` are immutable records.
- **TextWriter blob binding** (`TextWriterBinding`). It binds a `TextWriter` parameter to a block blob. The writer leaves its stream open. `SetValue` commits the blob only when the stream reports completion, and `Dispose` is idempotent and never commits.
- **Request tracking** (`RequestTracking`). `RequestTrackingTelemetryModule` creates request telemetry from the current activity. It reads the caller's application id from `Request-Context` and back-propagates its own id in the response. It also turns `traceparent`/`tracestate` into activity tags (W3C Trace Context, sections 3.2 and 3.3). Like the code, the model only splits on '-' and does not check field lengths or hexadecimal digits.
- **Telemetry initializers** (`WebJobsInitializer`, `ClientFactoryInitializers`, `TelemetryModel`). They set the role instance, IP, operation name, Category, LogLevel and request fields. They also merge activity tags with the first key winning, and apply filtered, null-free, "prop__"-prefixed scope properties with a fixed UTC date format.

Shared pieces:
- `Strings` holds .NET `Split`, `Join`, `StartsWith` and decimal formatting.
- `Guids` holds the "D" layout of `Guid.ToString` and `Guid.TryParse`.
- `Json` holds JSON values, the mutable `JObject` and the JSON library as a codec.
- `Wrappers` holds `Option`, exceptions and outcomes.

Code that changes state in place is modelled by classes with `modifies` clauses. Examples are `JObject`, `Activity`, `Telemetry`, the value binder, the module and the initializers. Each such method is specified by a pure function of the old state, and the lemmas are proved about those functions. Ambient state is passed as explicit parameters: `Activity.Current`, the HTTP context, the merged and current logger scopes, and the process environment. The JSON library is a parameter `codec: JsonCodec`. Its round trip `RoundTrips(codec)` is a hypothesis of the lemmas that need it, not an axiom.

## Model

| member | source | states |
|---|---|---|
| QueueCausality.WithOwner | src/Microsoft.Azure.WebJobs.Extensions.Storage/Queues/QueueCausalityManager.cs:27-41 | the empty Guid leaves the payload unchanged; any other owner sets exactly `$AzureWebJobsParentId` to its string form; every other key is unchanged |
| QueueCausality.SetOwner | src/Microsoft.Azure.WebJobs.Extensions.Storage/Queues/QueueCausalityManager.cs:31-42 | a null token throws `ArgumentNullException("token")`; otherwise the token's fields become `WithOwner` of the old fields |
| QueueCausality.WithTraceContext | src/Microsoft.Azure.WebJobs.Extensions.Storage/Queues/QueueCausalityManager.cs:51-59 | traceparent is written only if non-empty, tracestate only if both are non-empty; otherwise, and for every other key, the payload is unchanged |
| QueueCausality.SetTraceContext | src/Microsoft.Azure.WebJobs.Extensions.Storage/Queues/QueueCausalityManager.cs:44-60 | a null token throws `ArgumentNullException("token")`; otherwise the token's fields become `WithTraceContext` of the old fields |
| QueueCausality.StringField | src/Microsoft.Azure.WebJobs.Extensions.Storage/Queues/QueueCausalityManager.cs:65-87 | a field is read only from a non-null text that parses to a non-null object holding a JSON string under the key |
| QueueCausality.GetOwner | src/Microsoft.Azure.WebJobs.Extensions.Storage/Queues/QueueCausalityManager.cs:63-95 | a Guid exactly when the parent field is a JSON string that `Guid.TryParse` accepts, and then that Guid; null in every other case, never an exception |
| QueueCausality.GetTraceContext | src/Microsoft.Azure.WebJobs.Extensions.Storage/Queues/QueueCausalityManager.cs:98-129 | traceparent is the string field or null; tracestate is non-null only together with traceparent |
| QueueCausality.OwnerRoundTrip | src/Microsoft.Azure.WebJobs.Extensions.Storage/Queues/QueueCausalityManager.cs:38-93 | a non-empty owner written by `SetOwner` is read back by `GetOwner`, whatever else the payload holds; the empty Guid writes nothing |
| QueueCausality.TraceContextRoundTrip | src/Microsoft.Azure.WebJobs.Extensions.Storage/Queues/QueueCausalityManager.cs:51-128 | writing (tp, ts) into a payload without the trace keys reads back as (tp, ts), (tp, null) or (null, null) depending on which are empty |
| QueueCausality.TraceContextKeepsOwner | src/Microsoft.Azure.WebJobs.Extensions.Storage/Queues/QueueCausalityManager.cs:51-94 | writing a trace context never changes the parent id a reader finds |
| QueueCausality.OwnerKeepsTraceContext | src/Microsoft.Azure.WebJobs.Extensions.Storage/Queues/QueueCausalityManager.cs:38-128 | writing a parent id never changes the trace context a reader finds |
| Guids.TryParse | src/Microsoft.Azure.WebJobs.Extensions.Storage/Queues/QueueCausalityManager.cs:89-93 | a parsed Guid comes only from a 36-character text with hyphens at positions 8, 13, 18 and 23 |
| Guids.TryParseToString | src/Microsoft.Azure.WebJobs.Extensions.Storage/Queues/QueueCausalityManager.cs:40-93 | the string form written for a Guid is parsed back to the same Guid |
| Guids.ToStringInjective | src/Microsoft.Azure.WebJobs.Extensions.Storage/Queues/QueueCausalityManager.cs:40 | two Guids with the same string form are equal |
| Executors.FunctionInstanceAccessors | src/Microsoft.Azure.WebJobs.Host/Executors/FunctionInstance.cs:22-79 | each accessor returns exactly its constructor argument, null included |
| Executors.TriggeredFunctionExecutor.TryExecuteAsync | src/Microsoft.Azure.WebJobs.Extension.Storage/Queues/Listeners/QueueTriggerExecutor.cs:36 | the injected executor records each call with its input, token and answer |
| Diagnostics.Activity.SetParentId | src/Microsoft.Azure.WebJobs.Extension.Storage/Queues/Listeners/QueueTriggerExecutor.cs:29 | the parent id is set only on an activity without one, and only to a non-empty id |
| Diagnostics.Activity.AddTag | src/Microsoft.Azure.WebJobs.Logging.ApplicationInsights/RequestTrackingTelemetryModule.cs:183-192 | a tag is appended after the existing ones |
| QueueTriggerExecution.ParentIdFor | src/Microsoft.Azure.WebJobs.Extension.Storage/Queues/Listeners/QueueTriggerExecutor.cs:27-30 | the activity gets a parent exactly when the message has an owner, and that parent parses back to the owner |
| QueueTriggerExecution.QueueTriggerExecutor.constructor | src/Microsoft.Azure.WebJobs.Extension.Storage/Queues/Listeners/QueueTriggerExecutor.cs:18-21 | the executor keeps the injected inner executor |
| QueueTriggerExecution.QueueTriggerExecutor.ExecuteAsync | src/Microsoft.Azure.WebJobs.Extension.Storage/Queues/Listeners/QueueTriggerExecutor.cs:23-37 | exactly one call to the inner executor, with the same token; its result is returned unchanged; the data holds the message and a fresh activity named `BlobQueueTriggerExecutor` whose parent is the message's owner (via `GetOwner` only) |
| QueueTriggerExecution.ProducerOwnerBecomesActivityParent | src/Microsoft.Azure.WebJobs.Extension.Storage/Queues/Listeners/QueueTriggerExecutor.cs:25-30 | a message stamped by `SetOwner` with a non-empty owner starts an activity whose parent is that owner's string form |
| QueueTriggerExecution.ForeignPayloadHasNoParent | src/Microsoft.Azure.WebJobs.Extension.Storage/Queues/Listeners/QueueTriggerExecutor.cs:25-30 | a payload without the parent key, even one stamped with a trace context, gives the activity no parent |
| TextWriterBinding.TryCreate | src/Microsoft.Azure.Jobs.Host/Blobs/Bindings/TextWriterArgumentBindingProvider.cs:12-20 | a binding exactly for `TextWriter` parameters, whose value type is the parameter type; null for every other type |
| TextWriterBinding.TextWriterValueBinder.Type | src/Microsoft.Azure.Jobs.Host/Blobs/Bindings/TextWriterArgumentBindingProvider.cs:65-68 | the binder's type is the binding's value type, `TextWriter` |
| TextWriterBinding.TextWriterValueBinder.Watcher | src/Microsoft.Azure.Jobs.Host/Blobs/Bindings/TextWriterArgumentBindingProvider.cs:70-73 | the watcher is the self-watching stream the writer writes into, over the bound blob |
| TextWriterBinding.TextWriterValueBinder.GetValue | src/Microsoft.Azure.Jobs.Host/Blobs/Bindings/TextWriterArgumentBindingProvider.cs:75-78 | the value is the binder's own writer, the one `SetValue` and `Dispose` act on, writing into the watched stream, which it leaves open |
| TextWriterBinding.TextWriterValueBinder.ToInvokeString | src/Microsoft.Azure.Jobs.Host/Blobs/Bindings/TextWriterArgumentBindingProvider.cs:93-96 | the invoke string is the blob's path |
| TextWriterBinding.TextWriterValueBinder.SetValue | src/Microsoft.Azure.Jobs.Host/Blobs/Bindings/TextWriterArgumentBindingProvider.cs:80-91 | flush then dispose the writer, then dispose (commit) the stream exactly when `Complete()` says so; the writer leaves the stream open, so this holds on every call, after `Dispose` or an earlier `SetValue` too |
| TextWriterBinding.TextWriterValueBinder.Dispose | src/Microsoft.Azure.Jobs.Host/Blobs/Bindings/TextWriterArgumentBindingProvider.cs:98-107 | the first call disposes, and so flushes, only the writer and sets the flag; later calls do nothing; the stream is never touched and no commit happens |
| TextWriterBinding.TextWriterValueBinder.constructor | src/Microsoft.Azure.Jobs.Host/Blobs/Bindings/TextWriterArgumentBindingProvider.cs:58-63 | keeps blob, stream and writer, not yet disposed; the binder is valid exactly when the writer writes into that stream, leaves it open, and the stream is over that blob |
| TextWriterBinding.TextWriter.Flush | src/Microsoft.Azure.Jobs.Host/Blobs/Bindings/TextWriterArgumentBindingProvider.cs:83 | a writer that was disposed without leaving its stream open throws `ObjectDisposedException` and changes nothing; any other writer, a disposed leave-open one included, is flushed |
| TextWriterBinding.TextWriter.Dispose | src/Microsoft.Azure.Jobs.Host/Blobs/Bindings/TextWriterArgumentBindingProvider.cs:43-44 | a writer that is not closed flushes and becomes disposed; it disposes its stream only when not created with `leaveOpen`; a closed writer does nothing |
| TextWriterBinding.CloudBlob.OpenWrite | src/Microsoft.Azure.Jobs.Host/Blobs/Bindings/TextWriterArgumentBindingProvider.cs:38 | opening a write stream on a block blob gives a new, uncommitted stream and counts one open |
| TextWriterBinding.Bind | src/Microsoft.Azure.Jobs.Host/Blobs/Bindings/TextWriterArgumentBindingProvider.cs:29-46 | a non-block blob throws `InvalidOperationException` before any stream is opened; a block blob opens exactly one stream, wrapped in a writer that leaves it open |
| TextWriterBinding.CommitsAppend | src/Microsoft.Azure.Jobs.Host/Blobs/Bindings/TextWriterArgumentBindingProvider.cs:80-107 | commits in a history add up over its parts, so `Dispose` never adds a commit |
| Strings.Split | src/Microsoft.Azure.WebJobs.Logging.ApplicationInsights/RequestTrackingTelemetryModule.cs:180 | `string.Split(char)` gives one more part than there are separators, and no part holds the separator |
| Strings.JoinSplit | src/Microsoft.Azure.WebJobs.Logging.ApplicationInsights/RequestTrackingTelemetryModule.cs:180 | joining the parts of a split with the separator restores the text |
| Strings.SplitJoin | src/Microsoft.Azure.WebJobs.Logging.ApplicationInsights/RequestTrackingTelemetryModule.cs:180-186 | splitting the join of separator-free parts restores the parts |
| Strings.NatToDecimalRoundTrip | src/Microsoft.Azure.WebJobs.Logging.ApplicationInsights/RequestTrackingTelemetryModule.cs:106 | the decimal text of a status code reads back as that code |
| TelemetryModel.Telemetry.constructor | src/Microsoft.Azure.WebJobs.Logging.ApplicationInsights/RequestTrackingTelemetryModule.cs:149-152 | a new telemetry item has no ids, context fields or properties |
| TelemetryModel.ObjectToString | src/Microsoft.Azure.WebJobs.Logging.ApplicationInsights/DefaultTelemetryClientFactory.cs:210 | `ToString()` gives text for every non-null value |
| TelemetryModel.FormatUtcReadsBack | src/Microsoft.Azure.WebJobs.Logging.ApplicationInsights/DefaultTelemetryClientFactory.cs:150-206 | the UTC date format is 24 characters with fixed separators, ending in "Z", and every field reads back as the time's own field |
| TelemetryModel.AddMissingKeeps | src/Microsoft.Azure.WebJobs.Logging.ApplicationInsights/WebJobsTelemetryInitializer.cs:38-45 | adding only missing keys keeps every existing entry, and the result has the old keys plus the pairs' keys |
| TelemetryModel.AddMissingFirstWins | src/Microsoft.Azure.WebJobs.Logging.ApplicationInsights/WebJobsTelemetryInitializer.cs:39-45 | a key not present before gets the value of its first occurrence |
| TelemetryModel.CopyMissing | src/Microsoft.Azure.WebJobs.Logging.ApplicationInsights/RequestTrackingTelemetryModule.cs:159-165 | the copy loop adds each pair whose key is missing, as `AddMissing` states |
| RequestTracking.ApplicationIdProvider.TryGetApplicationId | src/Microsoft.Azure.WebJobs.Logging.ApplicationInsights/RequestTrackingTelemetryModule.cs:120 | an application id exists exactly for a registered instrumentation key |
| RequestTracking.FirstWithPrefix | src/Microsoft.Azure.WebJobs.Logging.ApplicationInsights/RequestTrackingTelemetryModule.cs:133 | the first value starting with the prefix, or null exactly when none does |
| RequestTracking.TryParseApplicationId | src/Microsoft.Azure.WebJobs.Logging.ApplicationInsights/RequestTrackingTelemetryModule.cs:196-207 | succeeds exactly when the pair has one '='; the id is the text after it; null input gives no id (corrected) |
| RequestTracking.TryParseApplicationIdAsWritten | src/Microsoft.Azure.WebJobs.Logging.ApplicationInsights/RequestTrackingTelemetryModule.cs:196-207 | a null pair throws `NullReferenceException`; otherwise it finds an id exactly when the corrected parser does, and the same id |
| RequestTracking.TryGetAppIdFromRequestHeaderAsWritten | src/Microsoft.Azure.WebJobs.Logging.ApplicationInsights/RequestTrackingTelemetryModule.cs:127-145 | throws `NullReferenceException` exactly when a Request-Context header has no value starting with "appId" |
| RequestTracking.TryGetAppIdFromRequestHeader | src/Microsoft.Azure.WebJobs.Logging.ApplicationInsights/RequestTrackingTelemetryModule.cs:127-145 | a source only from a Request-Context header, only when our own id is known, and never our own "cid-v1:" id |
| RequestTracking.RequestContextWithoutAppIdThrows | src/Microsoft.Azure.WebJobs.Logging.ApplicationInsights/RequestTrackingTelemetryModule.cs:133-135 | the header "roleName=frontend" makes the lookup throw |
| RequestTracking.CorrectedLookupAgrees | src/Microsoft.Azure.WebJobs.Logging.ApplicationInsights/RequestTrackingTelemetryModule.cs:127-145 | the corrected lookup gives no source where the code throws, and the code's answer everywhere else |
| RequestTracking.SourceFromRequestContext | src/Microsoft.Azure.WebJobs.Logging.ApplicationInsights/RequestTrackingTelemetryModule.cs:135-141 | an entry "appId=cid-v1:<id>" becomes the source unless <id> is our own id |
| RequestTracking.Append | src/Microsoft.Azure.WebJobs.Logging.ApplicationInsights/RequestTrackingTelemetryModule.cs:122 | the value is added after the header's existing values; other headers are unchanged |
| RequestTracking.WithAppIdInResponse | src/Microsoft.Azure.WebJobs.Logging.ApplicationInsights/RequestTrackingTelemetryModule.cs:115-125 | "appId=cid-v1:<id>" is appended only when no existing Request-Context value starts with "appId" and our id is known; otherwise the headers are unchanged |
| RequestTracking.BackPropagatedEntryParses | src/Microsoft.Azure.WebJobs.Logging.ApplicationInsights/RequestTrackingTelemetryModule.cs:122 | the appended entry is the one the request side picks and parses, and it names "cid-v1:<id>" |
| RequestTracking.W3CTagsRejoin | src/Microsoft.Azure.WebJobs.Logging.ApplicationInsights/RequestTrackingTelemetryModule.cs:177-188 | the four traceparent tags joined with '-' give back the header; no tags means the header did not have four fields |
| RequestTracking.W3CTagsFromFields | src/Microsoft.Azure.WebJobs.Logging.ApplicationInsights/RequestTrackingTelemetryModule.cs:177-193 | a traceparent of four '-'-free fields yields the version, trace-id, span-id and sampled tags in order, then the tracestate values joined with ',' |
| RequestTracking.ParseW3CHeaders | src/Microsoft.Azure.WebJobs.Logging.ApplicationInsights/RequestTrackingTelemetryModule.cs:175-194 | the activity's tags become the old tags followed by `W3CTags` of the headers |
| RequestTracking.ResponseCodeReadsBack | src/Microsoft.Azure.WebJobs.Logging.ApplicationInsights/RequestTrackingTelemetryModule.cs:106 | the response code text is the status code's decimal form and reads back as it |
| RequestTracking.RequestTrackingTelemetryModule.constructor | src/Microsoft.Azure.WebJobs.Logging.ApplicationInsights/RequestTrackingTelemetryModule.cs:44-50 | the provider and back-propagation flag are kept; nothing is initialized |
| RequestTracking.RequestTrackingTelemetryModule.Initialize | src/Microsoft.Azure.WebJobs.Logging.ApplicationInsights/RequestTrackingTelemetryModule.cs:52-70 | the first call stores the key and client and subscribes; later calls change nothing |
| RequestTracking.RequestTrackingTelemetryModule.SourceFor | src/Microsoft.Azure.WebJobs.Logging.ApplicationInsights/RequestTrackingTelemetryModule.cs:167-170 | the source is looked up only when a provider exists |
| RequestTracking.RequestTrackingTelemetryModule.CreateRequestTelemetry | src/Microsoft.Azure.WebJobs.Logging.ApplicationInsights/RequestTrackingTelemetryModule.cs:147-173 | ids from the activity, baggage copied with the first key winning, the caller's id as source (corrected lookup; see Findings); name, operation name, response code, success, role instance and IP unset |
| RequestTracking.RequestTrackingTelemetryModule.SetAppIdInResponseHeader | src/Microsoft.Azure.WebJobs.Logging.ApplicationInsights/RequestTrackingTelemetryModule.cs:115-125 | the response headers become `WithAppIdInResponse` of the old ones |
| RequestTracking.RequestTrackingTelemetryModule.OnHttpRequestInStart | src/Microsoft.Azure.WebJobs.Logging.ApplicationInsights/RequestTrackingTelemetryModule.cs:79-93 | nothing without a context and an activity; otherwise request telemetry is stored with the activity's id, root id and parent id, the caller's id as source (corrected lookup; see Findings), and no name, operation name, response code, success, role instance or IP; the activity's ids are unchanged and W3C tags are added; response headers change only with a provider and back-propagation enabled |
| RequestTracking.RequestTrackingTelemetryModule.OnHttpRequestInStop | src/Microsoft.Azure.WebJobs.Logging.ApplicationInsights/RequestTrackingTelemetryModule.cs:96-109 | nothing without stored telemetry; otherwise the response code is the status text and success means status below 400, while id, operation id, operation parent id, operation name, name, role instance, IP, source and properties are unchanged |
| WebJobsInitializer.GetRoleInstanceName | src/Microsoft.Azure.WebJobs.Logging.ApplicationInsights/WebJobsTelemetryInitializer.cs:84-93 | WEBSITE_INSTANCE_ID when non-empty, else COMPUTERNAME; empty or null only when both are |
| WebJobsInitializer.ScopeFromActivityTags | src/Microsoft.Azure.WebJobs.Logging.ApplicationInsights/WebJobsTelemetryInitializer.cs:35-46 | with an activity, the scope has exactly the tag keys, each with the value of its first tag |
| WebJobsInitializer.GetValueOrDefaultString | src/Microsoft.Azure.WebJobs.Logging.ApplicationInsights/WebJobsTelemetryInitializer.cs:54-59 | a string exactly for a string value; no value for a missing or null one; any other value fails the cast |
| WebJobsInitializer.SucceededFlag | src/Microsoft.Azure.WebJobs.Logging.ApplicationInsights/WebJobsTelemetryInitializer.cs:76-80 | unset exactly for null; true exactly when the value's text is "True" |
| WebJobsInitializer.SucceededFlagReadsBack | src/Microsoft.Azure.WebJobs.Logging.ApplicationInsights/WebJobsTelemetryInitializer.cs:79 | a boolean comes through as itself; the string "true" reads as false |
| WebJobsInitializer.WithCategoryAndLogLevel | src/Microsoft.Azure.WebJobs.Logging.ApplicationInsights/WebJobsTelemetryInitializer.cs:57-70 | Category and LogLevel are written only from non-null scope values; no other property changes |
| WebJobsInitializer.Initialized | src/Microsoft.Azure.WebJobs.Logging.ApplicationInsights/WebJobsTelemetryInitializer.cs:20-82 | role instance and IP always set; an exception only for a failed string cast; the properties change only for items with properties |
| WebJobsInitializer.InitializedRequest | src/Microsoft.Azure.WebJobs.Logging.ApplicationInsights/WebJobsTelemetryInitializer.cs:72-81 | a request is named after the function, gets response code "0", and has its success set exactly for a non-null succeeded value |
| WebJobsInitializer.InitializedProperties | src/Microsoft.Azure.WebJobs.Logging.ApplicationInsights/WebJobsTelemetryInitializer.cs:57-70 | on completion only Category and LogLevel may change, each only from a non-null scope value; without one the existing value is kept |
| WebJobsInitializer.WebJobsTelemetryInitializer.constructor | src/Microsoft.Azure.WebJobs.Logging.ApplicationInsights/WebJobsTelemetryInitializer.cs:18 | the role instance name is read from the environment once |
| WebJobsInitializer.WebJobsTelemetryInitializer.Initialize | src/Microsoft.Azure.WebJobs.Logging.ApplicationInsights/WebJobsTelemetryInitializer.cs:20-82 | null telemetry is a no-op; otherwise the item's fields and outcome are those of `Initialized` |
| WebJobsInitializer.BuildScope | src/Microsoft.Azure.WebJobs.Logging.ApplicationInsights/WebJobsTelemetryInitializer.cs:34-50 | the scope loop gives `ScopeProperties` |
| WebJobsInitializer.ApplyCategoryAndLogLevel | src/Microsoft.Azure.WebJobs.Logging.ApplicationInsights/WebJobsTelemetryInitializer.cs:57-70 | throws exactly on a non-string Category; otherwise the properties become `WithCategoryAndLogLevel` |
| WebJobsInitializer.ApplyRequestFields | src/Microsoft.Azure.WebJobs.Logging.ApplicationInsights/WebJobsTelemetryInitializer.cs:72-81 | name equals operation name, response code "0", success set only from a non-null value |
| ClientFactoryInitializers.NonSystemEntries | src/Microsoft.Azure.WebJobs.Logging.ApplicationInsights/DefaultTelemetryClientFactory.cs:151-161 | an entry is kept exactly when its key is not a system scope key |
| ClientFactoryInitializers.Rendered | src/Microsoft.Azure.WebJobs.Logging.ApplicationInsights/DefaultTelemetryClientFactory.cs:198-211 | null is skipped; dates use the fixed UTC format; every other value uses `ToString()` |
| ClientFactoryInitializers.AppliedKeeps | src/Microsoft.Azure.WebJobs.Logging.ApplicationInsights/DefaultTelemetryClientFactory.cs:186-215 | existing properties are never changed; each new key is the prefix plus the key of a non-null entry |
| ClientFactoryInitializers.AppliedStoresEach | src/Microsoft.Azure.WebJobs.Logging.ApplicationInsights/DefaultTelemetryClientFactory.cs:188-214 | without an exception, every non-null entry is stored, rendered, under its prefixed key |
| ClientFactoryInitializers.AppliedFailsOnCollision | src/Microsoft.Azure.WebJobs.Logging.ApplicationInsights/DefaultTelemetryClientFactory.cs:213 | for a dictionary's entries, `Add` throws exactly when a non-null entry's prefixed key already exists, and it names such a key |
| ClientFactoryInitializers.FailedKeyNamesEntry | src/Microsoft.Azure.WebJobs.Logging.ApplicationInsights/DefaultTelemetryClientFactory.cs:213 | the key that fails is the prefixed key of one of the entries |
| ClientFactoryInitializers.ApplyProperties | src/Microsoft.Azure.WebJobs.Logging.ApplicationInsights/DefaultTelemetryClientFactory.cs:186-215 | the properties and outcome are those of `Applied`; a duplicate key throws `ArgumentException` after the earlier adds |
| ClientFactoryInitializers.ActivityTagsNeverOverwrite | src/Microsoft.Azure.WebJobs.Logging.ApplicationInsights/DefaultTelemetryClientFactory.cs:163-183 | no existing property is overwritten; every tag key ends up present; no prefixed system key is added |
| ClientFactoryInitializers.ActivityTagsInitialize | src/Microsoft.Azure.WebJobs.Logging.ApplicationInsights/DefaultTelemetryClientFactory.cs:163-183 | tags are added for missing keys, then non-system scope entries are applied with the "prop__" prefix, only for items with properties |
| ClientFactoryInitializers.ScopeCategoryAndLogLevel | src/Microsoft.Azure.WebJobs.Logging.ApplicationInsights/DefaultTelemetryClientFactory.cs:227-238 | only Category and LogLevel can change; a failure is always a `NullReferenceException` |
| ClientFactoryInitializers.ScopeOverwrites | src/Microsoft.Azure.WebJobs.Logging.ApplicationInsights/DefaultTelemetryClientFactory.cs:227-238 | non-null Category and LogLevel overwrite any existing values; a key the scope lacks keeps its property and value; every other property is unchanged; a null value throws |
| ClientFactoryInitializers.MyInitialize | src/Microsoft.Azure.WebJobs.Logging.ApplicationInsights/DefaultTelemetryClientFactory.cs:220-239 | the properties and outcome are those of `ScopeCategoryAndLogLevel` |

## Left out

- JSON parsing and serialization (`JsonSerialization.ParseJObject`, `TryGetAsString`) are not part of this model. They are the parameter `JsonCodec`, and the round-trip lemmas assume `RoundTrips(codec)`: serializing then parsing an object gives it back. Parse exceptions are the `ParseFailed` outcome.
- `Guids.TryParse`: `Guid` is modelled only in the "D" layout (lower case out; either case in). The other layouts `Guid.TryParse` accepts (braces, parentheses, 32 bare digits, the hexadecimal "X" form) are not modelled, so `GetOwner` rejects them here. `Guid.TryParse` also trims surrounding whitespace; the model does not.
- `StreamWriter` buffering and UTF-8 encoding, `SelfWatchCloudBlobStream` and `BlobCommittedAction` internals are not modelled. The model tracks only which of writer and stream were flushed, disposed or committed. `Complete()` is the `complete` parameter of `SetValue`.
- `TextWriterBinding.TextWriterValueBinder.SetValue`: a call after the stream was committed flushes the writer into a disposed blob stream, which the storage client may reject with an exception; the storage client is not part of this model, so the model completes normally there.
- `TextWriterBinding.Bind`: the blob's kind is a field of `CloudBlob` rather than a runtime type test, and `context.NotifyNewBlob` is not modelled.
- The `DiagnosticListener` subscription, the `Subscriber` class, the `lock` and `Dispose` of the request-tracking module are concurrency and event plumbing. `Initialize` is modelled sequentially, with the flag and a `subscribed` boolean.
- `RequestTelemetry.Start/Stop`, `Url`/`GetDisplayUrl`, `TrackRequest` and the SDK version (found by reflection) are transport, timing and reflection, and are not modelled. `OnHttpRequestInStop` therefore does not model the `NullReferenceException` that `TrackRequest` would raise on a module that was never initialized.
- `RequestTracking.FirstWithPrefix` uses an ordinal prefix test. `string.StartsWith(string)` at line 133 of `RequestTrackingTelemetryModule.cs` is culture-sensitive, and that is not modelled.
- Request header values are the non-empty type `StringValues`, as ASP.NET drops headers without values. The `InvalidOperationException` that `parent.First()` in `ParseW3CHeaders` would throw on an empty value list is therefore not modelled.
- Header names and logger-scope keys are compared ordinally here. ASP.NET header dictionaries are case-insensitive, and that is not modelled.
- `Activity.Tags` and `Activity.Baggage` are sequences, and `Diagnostics.Activity.AddTag` appends. The `Activity` of `System.Diagnostics.DiagnosticSource` 4.x prepends both tags and baggage, so it enumerates them newest first. "First key wins" in `WebJobsInitializer.ScopeFromActivityTags`, `ClientFactoryInitializers.ActivityTagsNeverOverwrite` and `TelemetryModel.AddMissingFirstWins` is about the order the sequence is enumerated in; on the real `Activity` the tag added last wins.
- `Telemetry.properties` is one dictionary, standing for both `Context.Properties` and `ISupportProperties.Properties`, which share storage for items that implement `ISupportProperties`.
- The values of `LogConstants`, `ScopeKeys` and `ExecutionReason` come from code that is not part of this model. The usual SDK names are used: "Category", "LogLevel", "{OriginalFormat}", "Succeeded", "prop__", "MS_Event", "MS_FunctionInvocationId", "MS_FunctionName" and "MS_HostInstanceId".
- `GetValueOrDefault<T>` is not part of this model. It is modelled as the SDK's cast: a missing or null value gives null, and a value of another type throws `InvalidCastException`.
- `DictionaryLoggerScope.GetMergedStateDictionary` is not part of this model. It is taken never to return null, and `ActivityTagsInitialize` receives its entries as a sequence with distinct keys.
- `ActivityTagsInitialize` and `MyInitialize` take a non-null telemetry item, since the telemetry configuration never passes null to an initializer.
- `MyTelemetryInitializer`'s `Debug.WriteLine` of dependency data is diagnostics output only, and is not modelled.
- `ConfigureApplicationInsights` and the other host wiring of the client factory are not modelled.
- Dates reach `FormatUtc` already in UTC. `ToUniversalTime()` and time-zone data are not modelled.
- The culture-dependent `ToString()` of dates and other objects is carried as given text (`display`).
- `TryParseApplicationId`: the model uses the corrected version, which treats a null pair as "no id" (see Findings).
- `Executors.FunctionInstanceAccessors` holds by construction of the datatype. Readonly fields make `FunctionInstance` a value, so no accessor can change after construction. The source class is compared by reference, while two datatype values with the same fields are equal; the model never compares instances.

## Findings

| source | as written | input that shows it | evidently intended | confidence | as-written member | corrected member |
|---|---|---|---|---|---|---|
| src/Microsoft.Azure.WebJobs.Logging.ApplicationInsights/RequestTrackingTelemetryModule.cs:133 | `FirstOrDefault` gives null when no `Request-Context` value starts with "appId", and `TryParseApplicationId` then calls `Split` on null (line 198), so a request throws `NullReferenceException` | a request with the header `Request-Context: roleName=frontend` and an application id provider (lemma `RequestTracking.RequestContextWithoutAppIdThrows`) | such a request has no source and no exception; `RequestTracking.CorrectedLookupAgrees` shows the corrected lookup agrees with the code everywhere the code does not throw | not executed; follows from .NET semantics of `FirstOrDefault` and of calling a method on null | RequestTracking.TryGetAppIdFromRequestHeaderAsWritten | RequestTracking.TryGetAppIdFromRequestHeader |

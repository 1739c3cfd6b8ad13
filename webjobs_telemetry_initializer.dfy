/**
 * WebJobsTelemetryInitializer: stamps every telemetry item with the role
 * instance, a zeroed client IP, the function name as operation name, and the
 * Category and LogLevel of the current scope; request items also get their
 * name, a "0" response code and the invocation's success flag.
 * `Activity.Current`, the merged logger scope and the process environment are
 * passed explicitly.
 */
module WebJobsInitializer {
  import opened Wrappers
  import opened Strings
  import Diagnostics
  import opened TelemetryModel

  const ComputerNameKey: string := "COMPUTERNAME"
  const WebSiteInstanceIdKey: string := "WEBSITE_INSTANCE_ID"
  const ZeroIpAddress: string := "0.0.0.0"

  /** The process environment; an unset variable is absent. */
  type Environment = map<string, string>

  function GetEnvironmentVariable(env: Environment, name: string): Option<string> {
    if name in env then Some(env[name]) else None
  }

  /**
   * `GetRoleInstanceName`: the site instance id when it is set and non-empty,
   * otherwise the computer name (which may itself be unset).
   */
  function GetRoleInstanceName(env: Environment): (r: Option<string>)
    ensures !IsNullOrEmpty(GetEnvironmentVariable(env, WebSiteInstanceIdKey)) ==>
      r == GetEnvironmentVariable(env, WebSiteInstanceIdKey)
    ensures IsNullOrEmpty(GetEnvironmentVariable(env, WebSiteInstanceIdKey)) ==>
      r == GetEnvironmentVariable(env, ComputerNameKey)
    ensures IsNullOrEmpty(r) <==>
      IsNullOrEmpty(GetEnvironmentVariable(env, WebSiteInstanceIdKey)) &&
      IsNullOrEmpty(GetEnvironmentVariable(env, ComputerNameKey))
  {
    var instanceName := GetEnvironmentVariable(env, WebSiteInstanceIdKey);
    if IsNullOrEmpty(instanceName) then GetEnvironmentVariable(env, ComputerNameKey) else instanceName
  }

  /** The activity's tags as scope values (tag values are strings). */
  function TagsAsScope(tags: seq<Diagnostics.Tag>): (r: seq<(string, ScopeValue)>)
    ensures |r| == |tags|
    ensures forall i :: 0 <= i < |tags| ==> r[i] == (tags[i].0, SString(tags[i].1))
  {
    seq(|tags|, i requires 0 <= i < |tags| => (tags[i].0, SString(tags[i].1)))
  }

  /**
   * The scope properties the initializer reads: the current activity's tags,
   * the first occurrence of a key winning; without an activity, the merged
   * logger scope, or nothing.
   */
  function ScopeProperties(activityTags: Option<seq<Diagnostics.Tag>>, mergedScope: Option<map<string, ScopeValue>>)
    : map<string, ScopeValue>
  {
    match activityTags
    case Some(tags) => AddMissing(map[], TagsAsScope(tags))
    case None => mergedScope.GetOr(map[])
  }

  /**
   * With an activity, the scope holds exactly the tag keys, each with the value
   * of its first tag.
   */
  lemma {:induction false} ScopeFromActivityTags(tags: seq<Diagnostics.Tag>, mergedScope: Option<map<string, ScopeValue>>, i: nat)
    requires i < |tags|
    requires forall j :: 0 <= j < i ==> tags[j].0 != tags[i].0
    ensures ScopeProperties(Some(tags), mergedScope).Keys == KeysOf(tags)
    ensures ScopeProperties(Some(tags), mergedScope)[tags[i].0] == SString(tags[i].1)
  {
    var kvs := TagsAsScope(tags);
    AddMissingKeeps(map[], kvs);
    assert KeysOf(kvs) == KeysOf(tags) by {
      forall k | k in KeysOf(kvs) ensures k in KeysOf(tags) {
        var j :| 0 <= j < |kvs| && kvs[j].0 == k;
        assert tags[j].0 == k;
      }
      forall k | k in KeysOf(tags) ensures k in KeysOf(kvs) {
        var j :| 0 <= j < |tags| && tags[j].0 == k;
        assert kvs[j].0 == k;
      }
    }
    AddMissingFirstWins(map[], kvs, i);
  }

  /** What `GetValueOrDefault<string>` gives: no value, a string, or a failed cast. */
  datatype StringRead = NoText | Text(text: string) | CastFailed {
    function AsOption(): Option<string> {
      if Text? then Some(text) else None
    }
  }

  /** `GetValueOrDefault<string>`: the `(string)` cast of the value, null when the key is missing. */
  function GetValueOrDefaultString(scope: map<string, ScopeValue>, key: string): (r: StringRead)
    ensures r.Text? <==> key in scope && scope[key].SString?
    ensures r.Text? ==> scope[key] == SString(r.text)
    ensures r.NoText? <==> key !in scope || scope[key].SNull?
  {
    if key !in scope then NoText
    else match scope[key]
      case SNull => NoText
      case SString(s) => Text(s)
      case _ => CastFailed
  }

  /** `GetValueOrDefault<object>`: the value, null when the key is missing. */
  function GetValueOrDefaultObject(scope: map<string, ScopeValue>, key: string): ScopeValue {
    if key in scope then scope[key] else SNull
  }

  /** `Success` from the scope's succeeded value: unset for null, else whether its text is "True". */
  function SucceededFlag(succeeded: ScopeValue): (r: Option<bool>)
    ensures r.None? <==> succeeded.SNull?
    ensures r == Some(true) <==> ObjectToString(succeeded) == Some("True")
  {
    match ObjectToString(succeeded)
    case None => None
    case Some(text) => Some(text == "True")
  }

  /**
   * A boolean succeeded value comes through as itself; a string must be exactly
   * "True" (ordinal comparison), so "true" reads as a failure.
   */
  lemma SucceededFlagReadsBack(b: bool)
    ensures SucceededFlag(SBool(b)) == Some(b)
    ensures SucceededFlag(SString("True")) == Some(true)
    ensures SucceededFlag(SString("true")) == Some(false)
  {
    assert "False"[0] != "True"[0];
    assert "true"[0] != "True"[0];
  }

  /** The properties after the Category and LogLevel writes; every other key is untouched. */
  function WithCategoryAndLogLevel(properties: map<string, string>, scope: map<string, ScopeValue>)
    : (r: map<string, string>)
    requires !GetValueOrDefaultString(scope, CategoryNameKey).CastFailed?
    ensures forall k :: k != CategoryNameKey && k != LogLevelKey ==>
      (k in r <==> k in properties) && (k in r ==> r[k] == properties[k])
    ensures GetValueOrDefaultString(scope, CategoryNameKey).Text? ==>
      CategoryNameKey in r && r[CategoryNameKey] == GetValueOrDefaultString(scope, CategoryNameKey).text
    ensures GetValueOrDefaultString(scope, CategoryNameKey).NoText? ==>
      (CategoryNameKey in r <==> CategoryNameKey in properties) &&
      (CategoryNameKey in r ==> r[CategoryNameKey] == properties[CategoryNameKey])
    ensures ObjectToString(GetValueOrDefaultObject(scope, LogLevelKey)).Some? ==>
      LogLevelKey in r && Some(r[LogLevelKey]) == ObjectToString(GetValueOrDefaultObject(scope, LogLevelKey))
    ensures GetValueOrDefaultObject(scope, LogLevelKey).SNull? ==>
      (LogLevelKey in r <==> LogLevelKey in properties) &&
      (LogLevelKey in r ==> r[LogLevelKey] == properties[LogLevelKey])
  {
    var withCategory :=
      match GetValueOrDefaultString(scope, CategoryNameKey)
      case Text(category) => properties[CategoryNameKey := category]
      case _ => properties;
    match ObjectToString(GetValueOrDefaultObject(scope, LogLevelKey))
    case Some(logLevel) => withCategory[LogLevelKey := logLevel]
    case None => withCategory
  }

  /** The fields of a telemetry item this initializer writes. */
  datatype Fields = Fields(
    roleInstance: Option<string>,
    locationIp: Option<string>,
    operationName: Option<string>,
    properties: map<string, string>,
    name: Option<string>,
    responseCode: Option<string>,
    success: Option<bool>)

  function FieldsOf(t: Telemetry): Fields
    reads t
  {
    Fields(t.roleInstance, t.locationIp, t.operationName, t.properties, t.name, t.responseCode, t.success)
  }

  /**
   * The fields after `Initialize` on an item of the given kind, with the
   * outcome. The role instance and IP are set first; a scope value of the
   * wrong type for a `string` read throws `InvalidCastException` and leaves the
   * later fields untouched.
   */
  function Initialized(f: Fields, kind: TelemetryKind, roleInstanceName: Option<string>, scope: map<string, ScopeValue>)
    : (r: (Fields, Outcome))
    ensures r.0.roleInstance == roleInstanceName && r.0.locationIp == Some(ZeroIpAddress)
    ensures r.1.Threw? ==> r.1.error == InvalidCast("string")
    ensures r.1.Threw? <==>
      GetValueOrDefaultString(scope, FunctionNameKey).CastFailed? ||
      (SupportsProperties(kind) && GetValueOrDefaultString(scope, CategoryNameKey).CastFailed?)
    ensures r.1.Threw? ==> r.0.properties == f.properties && r.0.success == f.success
    ensures !SupportsProperties(kind) ==> r.0.properties == f.properties
    ensures kind != Request ==> r.0.name == f.name && r.0.responseCode == f.responseCode && r.0.success == f.success
  {
    var f1 := f.(roleInstance := roleInstanceName, locationIp := Some(ZeroIpAddress));
    var functionName := GetValueOrDefaultString(scope, FunctionNameKey);
    if functionName.CastFailed? then (f1, Threw(InvalidCast("string")))
    else
      var f2 := f1.(operationName := functionName.AsOption());
      if SupportsProperties(kind) && GetValueOrDefaultString(scope, CategoryNameKey).CastFailed? then
        (f2, Threw(InvalidCast("string")))
      else
        var f3 := if SupportsProperties(kind) then f2.(properties := WithCategoryAndLogLevel(f2.properties, scope)) else f2;
        if kind == Request then
          var flag := SucceededFlag(GetValueOrDefaultObject(scope, SucceededKey));
          (f3.(name := f3.operationName, responseCode := Some("0"), success := if flag.Some? then flag else f3.success), Done)
        else (f3, Done)
  }

  /**
   * On normal completion the operation name is the scope's function name, a
   * request is named after it with response code "0", and its success flag is
   * set exactly when the scope holds a non-null succeeded value.
   */
  lemma InitializedRequest(f: Fields, roleInstanceName: Option<string>, scope: map<string, ScopeValue>)
    requires Initialized(f, Request, roleInstanceName, scope).1 == Done
    ensures var r := Initialized(f, Request, roleInstanceName, scope).0;
      && r.operationName == GetValueOrDefaultString(scope, FunctionNameKey).AsOption()
      && r.name == r.operationName
      && r.responseCode == Some("0")
      && (!GetValueOrDefaultObject(scope, SucceededKey).SNull? ==>
            (r.success == Some(true) <==> ObjectToString(GetValueOrDefaultObject(scope, SucceededKey)) == Some("True")))
      && (GetValueOrDefaultObject(scope, SucceededKey).SNull? ==> r.success == f.success)
      && (!GetValueOrDefaultObject(scope, SucceededKey).SNull? ==> r.success.Some?)
  {
  }

  /**
   * On normal completion the Category and LogLevel properties are written from
   * non-null scope values only, and no other property changes.
   */
  lemma InitializedProperties(f: Fields, kind: TelemetryKind, roleInstanceName: Option<string>, scope: map<string, ScopeValue>)
    requires SupportsProperties(kind)
    requires Initialized(f, kind, roleInstanceName, scope).1 == Done
    ensures var r := Initialized(f, kind, roleInstanceName, scope).0;
      && (forall k :: k != CategoryNameKey && k != LogLevelKey ==>
            (k in r.properties <==> k in f.properties) && (k in r.properties ==> r.properties[k] == f.properties[k]))
      && (GetValueOrDefaultString(scope, CategoryNameKey).Text? ==>
            CategoryNameKey in r.properties &&
            r.properties[CategoryNameKey] == GetValueOrDefaultString(scope, CategoryNameKey).text)
      && (GetValueOrDefaultString(scope, CategoryNameKey).NoText? ==>
            (CategoryNameKey in r.properties <==> CategoryNameKey in f.properties))
      && (GetValueOrDefaultString(scope, CategoryNameKey).NoText? && CategoryNameKey in r.properties ==>
            r.properties[CategoryNameKey] == f.properties[CategoryNameKey])
      && (GetValueOrDefaultObject(scope, LogLevelKey).SNull? ==>
            (LogLevelKey in r.properties <==> LogLevelKey in f.properties))
      && (GetValueOrDefaultObject(scope, LogLevelKey).SNull? && LogLevelKey in r.properties ==>
            r.properties[LogLevelKey] == f.properties[LogLevelKey])
  {
  }

  class WebJobsTelemetryInitializer {
    /** The role instance name, read from the environment once. */
    const roleInstanceName: Option<string>

    constructor (env: Environment)
      ensures roleInstanceName == GetRoleInstanceName(env)
    {
      roleInstanceName := GetRoleInstanceName(env);
    }

    /** `Initialize`: a null item is left alone; otherwise its fields become `Initialized`. */
    method Initialize(telemetry: Telemetry?, currentActivity: Diagnostics.Activity?,
                      mergedScope: Option<map<string, ScopeValue>>)
      returns (outcome: Outcome)
      modifies telemetry
      ensures telemetry == null ==> outcome == Done
      ensures telemetry != null ==>
        var scope := ScopeProperties(if currentActivity != null then Some(currentActivity.tags) else None, mergedScope);
        var r := Initialized(old(FieldsOf(telemetry)), telemetry.kind, roleInstanceName, scope);
        && FieldsOf(telemetry) == r.0 && outcome == r.1
        && telemetry.id == old(telemetry.id) && telemetry.source == old(telemetry.source)
        && telemetry.operationId == old(telemetry.operationId)
        && telemetry.operationParentId == old(telemetry.operationParentId)
    {
      if telemetry == null {
        return Done;
      }
      telemetry.roleInstance := roleInstanceName;
      telemetry.locationIp := Some(ZeroIpAddress);

      var scopeProps := BuildScope(currentActivity, mergedScope);

      var functionName := GetValueOrDefaultString(scopeProps, FunctionNameKey);
      if functionName.CastFailed? {
        return Threw(InvalidCast("string"));
      }
      telemetry.operationName := functionName.AsOption();

      if SupportsProperties(telemetry.kind) {
        outcome := ApplyCategoryAndLogLevel(telemetry, scopeProps);
        if outcome.Threw? {
          return;
        }
      }
      if telemetry.kind == Request {
        ApplyRequestFields(telemetry, scopeProps);
      }
      return Done;
    }
  }

  /** The scope dictionary: a loop over the activity's tags, or the merged scope. */
  method BuildScope(currentActivity: Diagnostics.Activity?, mergedScope: Option<map<string, ScopeValue>>)
    returns (scopeProps: map<string, ScopeValue>)
    ensures scopeProps == ScopeProperties(if currentActivity != null then Some(currentActivity.tags) else None, mergedScope)
  {
    if currentActivity != null {
      scopeProps := CopyMissing(map[], TagsAsScope(currentActivity.tags));
    } else {
      scopeProps := mergedScope.GetOr(map[]);
    }
  }

  /** The Category and LogLevel writes of `Initialize`. */
  method ApplyCategoryAndLogLevel(telemetry: Telemetry, scopeProps: map<string, ScopeValue>) returns (outcome: Outcome)
    modifies telemetry`properties
    ensures outcome.Threw? <==> GetValueOrDefaultString(scopeProps, CategoryNameKey).CastFailed?
    ensures outcome.Threw? ==> outcome == Threw(InvalidCast("string")) && telemetry.properties == old(telemetry.properties)
    ensures outcome.Done? ==> telemetry.properties == WithCategoryAndLogLevel(old(telemetry.properties), scopeProps)
  {
    var category := GetValueOrDefaultString(scopeProps, CategoryNameKey);
    if category.CastFailed? {
      return Threw(InvalidCast("string"));
    }
    if category.Text? {
      telemetry.properties := telemetry.properties[CategoryNameKey := category.text];
    }
    var logLevel := ObjectToString(GetValueOrDefaultObject(scopeProps, LogLevelKey));
    if logLevel.Some? {
      telemetry.properties := telemetry.properties[LogLevelKey := logLevel.value];
    }
    return Done;
  }

  /** The request-only writes of `Initialize`. */
  method ApplyRequestFields(telemetry: Telemetry, scopeProps: map<string, ScopeValue>)
    modifies telemetry`name, telemetry`responseCode, telemetry`success
    ensures telemetry.name == telemetry.operationName && telemetry.responseCode == Some("0")
    ensures var flag := SucceededFlag(GetValueOrDefaultObject(scopeProps, SucceededKey));
      telemetry.success == if flag.Some? then flag else old(telemetry.success)
  {
    telemetry.name := telemetry.operationName;
    telemetry.responseCode := Some("0");
    var succeeded := SucceededFlag(GetValueOrDefaultObject(scopeProps, SucceededKey));
    if succeeded.Some? {
      telemetry.success := succeeded;
    }
  }
}

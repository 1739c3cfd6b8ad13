/**
 * The two telemetry initializers of the client factory.
 * `ActivityTagsTelemetryIntitializer` copies the current activity's tags into
 * the item's properties without overwriting, then adds the non-system logger
 * scope entries under the "prop__" prefix, with dates in a fixed UTC format
 * and null values dropped. `MyTelemetryInitializer` overwrites Category and
 * LogLevel from the innermost logger scope.
 */
module ClientFactoryInitializers {
  import opened Wrappers
  import opened Strings
  import Diagnostics
  import opened TelemetryModel

  const OperationContextKey: string := "MS_OperationContext"

  /** Scope keys the SDK sets for itself; they are never copied as custom properties. */
  const SystemScopeKeys: seq<string> := [
    CategoryNameKey, LogLevelKey, OriginalFormatKey, EventKey,
    FunctionInvocationIdKey, FunctionNameKey, HostInstanceIdKey, OperationContextKey
  ]

  /** A dictionary enumerated as pairs: no key occurs twice. */
  predicate DistinctKeys<V>(entries: seq<(string, V)>) {
    forall i, j :: 0 <= i < j < |entries| ==> entries[i].0 != entries[j].0
  }

  /** The merged scope without the system keys (`Where` keeps the enumeration order). */
  function NonSystemEntries(entries: seq<(string, ScopeValue)>): (r: seq<(string, ScopeValue)>)
    ensures forall e :: e in r <==> e in entries && e.0 !in SystemScopeKeys
    ensures |r| <= |entries|
    ensures DistinctKeys(entries) ==> DistinctKeys(r)
  {
    if entries == [] then []
    else
      var rest := NonSystemEntries(entries[1..]);
      assert forall e :: e in entries <==> e == entries[0] || e in entries[1..];
      if entries[0].0 in SystemScopeKeys then rest
      else
        assert DistinctKeys(entries) ==> forall e :: e in rest ==> e.0 != entries[0].0 by {
          if DistinctKeys(entries) {
            forall e | e in rest ensures e.0 != entries[0].0 {
              var j :| 0 <= j < |entries[1..]| && entries[1..][j] == e;
              assert entries[j + 1] == e;
            }
          }
        }
        [entries[0]] + rest
  }

  /**
   * The text `ApplyProperties` stores for a value: dates in UTC in the fixed
   * format, any other value by its `ToString()`; `None` for null, which is skipped.
   */
  function Rendered(v: ScopeValue): (r: Option<string>)
    ensures r.None? <==> v.SNull?
    ensures v.SDateTime? || v.SDateTimeOffset? ==> r == Some(FormatUtc(v.utc))
    ensures !(v.SDateTime? || v.SDateTimeOffset?) ==> r == ObjectToString(v)
  {
    match v
    case SDateTime(utc, _) => Some(FormatUtc(utc))
    case SDateTimeOffset(utc, _) => Some(FormatUtc(utc))
    case _ => ObjectToString(v)
  }

  /** The properties after `ApplyProperties`, and the key whose `Add` threw, if any. */
  datatype ApplyResult = ApplyResult(properties: map<string, string>, failedKey: Option<string>)

  function Applied(properties: map<string, string>, entries: seq<(string, ScopeValue)>, prefix: string): ApplyResult
    decreases |entries|
  {
    if entries == [] then ApplyResult(properties, None)
    else match Rendered(entries[0].1)
      case None => Applied(properties, entries[1..], prefix)
      case Some(text) =>
        var key := prefix + entries[0].0;
        if key in properties then ApplyResult(properties, Some(key))
        else Applied(properties[key := text], entries[1..], prefix)
  }

  /**
   * `ApplyProperties` never changes a property that was already there, and every
   * property it adds is the prefix followed by the key of a non-null entry.
   */
  lemma {:induction false} AppliedKeeps(properties: map<string, string>, entries: seq<(string, ScopeValue)>, prefix: string)
    ensures var r := Applied(properties, entries, prefix).properties;
      && (forall k :: k in properties ==> k in r && r[k] == properties[k])
      && (forall k :: k in r && k !in properties ==>
            exists i :: 0 <= i < |entries| && k == prefix + entries[i].0 && !entries[i].1.SNull?)
    decreases |entries|
  {
    if entries != [] {
      var rest := entries[1..];
      var text := Rendered(entries[0].1);
      var key := prefix + entries[0].0;
      if text.None? {
        AppliedKeeps(properties, rest, prefix);
        ShiftWitness(entries, prefix, Applied(properties, rest, prefix).properties, properties);
      } else if key !in properties {
        var p' := properties[key := text.value];
        AppliedKeeps(p', rest, prefix);
        var r := Applied(p', rest, prefix).properties;
        forall k | k in r && k !in properties
          ensures exists i :: 0 <= i < |entries| && k == prefix + entries[i].0 && !entries[i].1.SNull?
        {
          if k == key {
            assert k == prefix + entries[0].0 && !entries[0].1.SNull?;
          } else {
            var i :| 0 <= i < |rest| && k == prefix + rest[i].0 && !rest[i].1.SNull?;
            assert entries[i + 1] == rest[i];
          }
        }
      }
    }
  }

  /** A witness among `entries[1..]` is one among `entries`. */
  lemma ShiftWitness(entries: seq<(string, ScopeValue)>, prefix: string, r: map<string, string>, properties: map<string, string>)
    requires entries != []
    requires forall k :: k in r && k !in properties ==>
      exists i :: 0 <= i < |entries[1..]| && k == prefix + entries[1..][i].0 && !entries[1..][i].1.SNull?
    ensures forall k :: k in r && k !in properties ==>
      exists i :: 0 <= i < |entries| && k == prefix + entries[i].0 && !entries[i].1.SNull?
  {
    forall k | k in r && k !in properties
      ensures exists i :: 0 <= i < |entries| && k == prefix + entries[i].0 && !entries[i].1.SNull?
    {
      var i :| 0 <= i < |entries[1..]| && k == prefix + entries[1..][i].0 && !entries[1..][i].1.SNull?;
      assert entries[i + 1] == entries[1..][i];
    }
  }

  /**
   * When no `Add` throws, every non-null entry is stored under the prefixed key,
   * rendered.
   */
  lemma {:induction false} AppliedStoresEach(properties: map<string, string>, entries: seq<(string, ScopeValue)>, prefix: string, i: nat)
    requires i < |entries| && !entries[i].1.SNull?
    requires Applied(properties, entries, prefix).failedKey.None?
    ensures var r := Applied(properties, entries, prefix).properties;
      prefix + entries[i].0 in r && Some(r[prefix + entries[i].0]) == Rendered(entries[i].1)
    decreases |entries|
  {
    var rest := entries[1..];
    var text := Rendered(entries[0].1);
    var key := prefix + entries[0].0;
    if i == 0 {
      AppliedKeeps(properties[key := text.value], rest, prefix);
    } else if text.None? {
      AppliedStoresEach(properties, rest, prefix, i - 1);
    } else {
      AppliedStoresEach(properties[key := text.value], rest, prefix, i - 1);
    }
  }

  /** Some non-null entry's prefixed key is already a property. */
  predicate Collides(entries: seq<(string, ScopeValue)>, prefix: string, properties: map<string, string>) {
    exists i :: 0 <= i < |entries| && !entries[i].1.SNull? && prefix + entries[i].0 in properties
  }

  lemma PrefixCancels(prefix: string, a: string, b: string)
    ensures prefix + a == prefix + b ==> a == b
  {
    if prefix + a == prefix + b {
      assert (prefix + a)[|prefix|..] == a;
      assert (prefix + b)[|prefix|..] == b;
    }
  }

  /** The key `ApplyProperties` fails on is the prefixed key of one of the entries. */
  lemma {:induction false} FailedKeyNamesEntry(properties: map<string, string>, entries: seq<(string, ScopeValue)>, prefix: string)
    ensures var r := Applied(properties, entries, prefix);
      r.failedKey.Some? ==> exists i :: 0 <= i < |entries| && r.failedKey.value == prefix + entries[i].0
    decreases |entries|
  {
    if entries != [] {
      var rest := entries[1..];
      var text := Rendered(entries[0].1);
      var key := prefix + entries[0].0;
      if text.None? || key !in properties {
        var p' := if text.None? then properties else properties[key := text.value];
        FailedKeyNamesEntry(p', rest, prefix);
        var r := Applied(p', rest, prefix);
        if r.failedKey.Some? {
          var i :| 0 <= i < |rest| && r.failedKey.value == prefix + rest[i].0;
          assert rest[i] == entries[i + 1];
        }
      }
    }
  }

  /** The collision condition over `entries` splits into its head and its tail. */
  lemma CollidesSplit(entries: seq<(string, ScopeValue)>, prefix: string, properties: map<string, string>)
    requires entries != []
    ensures Collides(entries, prefix, properties) <==>
      (!entries[0].1.SNull? && prefix + entries[0].0 in properties) || Collides(entries[1..], prefix, properties)
  {
    if Collides(entries, prefix, properties) {
      var i :| 0 <= i < |entries| && !entries[i].1.SNull? && prefix + entries[i].0 in properties;
      if i > 0 {
        assert entries[1..][i - 1] == entries[i];
      }
    }
    if Collides(entries[1..], prefix, properties) {
      var i :| 0 <= i < |entries[1..]| && !entries[1..][i].1.SNull? && prefix + entries[1..][i].0 in properties;
      assert entries[i + 1] == entries[1..][i];
    }
  }

  /** Adding a key no entry is prefixed to does not change whether the entries collide. */
  lemma CollidesIgnoresKey(entries: seq<(string, ScopeValue)>, prefix: string, properties: map<string, string>, key: string, text: string)
    requires forall i :: 0 <= i < |entries| ==> prefix + entries[i].0 != key
    ensures Collides(entries, prefix, properties[key := text]) <==> Collides(entries, prefix, properties)
  {
    if Collides(entries, prefix, properties[key := text]) {
      var i :| 0 <= i < |entries| && !entries[i].1.SNull? && prefix + entries[i].0 in properties[key := text];
      assert prefix + entries[i].0 in properties;
    }
  }

  /**
   * For a dictionary's entries, `ApplyProperties` throws exactly when a non-null
   * entry's prefixed key was already a property, and it names such a key.
   */
  lemma {:induction false} AppliedFailsOnCollision(properties: map<string, string>, entries: seq<(string, ScopeValue)>, prefix: string)
    requires DistinctKeys(entries)
    ensures var r := Applied(properties, entries, prefix);
      && (r.failedKey.Some? <==> Collides(entries, prefix, properties))
      && (r.failedKey.Some? ==> r.failedKey.value in properties)
    decreases |entries|
  {
    if entries != [] {
      var rest := entries[1..];
      var text := Rendered(entries[0].1);
      var key := prefix + entries[0].0;
      assert DistinctKeys(rest) by {
        forall i, j | 0 <= i < j < |rest| ensures rest[i].0 != rest[j].0 {
          assert rest[i] == entries[i + 1] && rest[j] == entries[j + 1];
        }
      }
      CollidesSplit(entries, prefix, properties);
      if text.None? {
        AppliedFailsOnCollision(properties, rest, prefix);
      } else if key !in properties {
        var p' := properties[key := text.value];
        AppliedFailsOnCollision(p', rest, prefix);
        forall i | 0 <= i < |rest| ensures prefix + rest[i].0 != key {
          assert rest[i] == entries[i + 1];
          PrefixCancels(prefix, rest[i].0, entries[0].0);
        }
        CollidesIgnoresKey(rest, prefix, properties, key, text.value);
        FailedKeyNamesEntry(p', rest, prefix);
      }
    }
  }

  /**
   * `ApplyProperties`: adds each non-null entry under the prefixed key; an `Add`
   * of a key already present throws `ArgumentException` after the earlier adds.
   */
  method ApplyProperties(telemetry: Telemetry, entries: seq<(string, ScopeValue)>, prefix: string)
    returns (outcome: Outcome)
    modifies telemetry`properties
    ensures var r := Applied(old(telemetry.properties), entries, prefix);
      && telemetry.properties == r.properties
      && outcome == if r.failedKey.Some? then Threw(ArgumentDuplicateKey(r.failedKey.value)) else Done
  {
    var i := 0;
    while i < |entries|
      invariant 0 <= i <= |entries|
      invariant Applied(telemetry.properties, entries[i..], prefix) == Applied(old(telemetry.properties), entries, prefix)
    {
      assert entries[i..][1..] == entries[i + 1..];
      var text := Rendered(entries[i].1);
      if text.Some? {
        var key := prefix + entries[i].0;
        if key in telemetry.properties {
          return Threw(ArgumentDuplicateKey(key));
        }
        telemetry.properties := telemetry.properties[key := text.value];
      }
      i := i + 1;
    }
    return Done;
  }

  /** The properties and failure after `ActivityTagsTelemetryIntitializer.Initialize`. */
  function ActivityTagsApplied(
    properties: map<string, string>, kind: TelemetryKind,
    activityTags: Option<seq<Diagnostics.Tag>>, mergedScope: seq<(string, ScopeValue)>): ApplyResult
  {
    var withTags := if activityTags.Some? then AddMissing(properties, activityTags.value) else properties;
    if SupportsProperties(kind) then Applied(withTags, NonSystemEntries(mergedScope), CustomPropertyPrefix)
    else ApplyResult(withTags, None)
  }

  /**
   * The activity-tags initializer never overwrites a property, adds every tag
   * key, and never adds a prefixed system scope key.
   */
  lemma ActivityTagsNeverOverwrite(
    properties: map<string, string>, kind: TelemetryKind,
    activityTags: Option<seq<Diagnostics.Tag>>, mergedScope: seq<(string, ScopeValue)>)
    ensures var r := ActivityTagsApplied(properties, kind, activityTags, mergedScope).properties;
      && (forall k :: k in properties ==> k in r && r[k] == properties[k])
      && (activityTags.Some? ==> KeysOf(activityTags.value) <= r.Keys)
      && (forall sk :: sk in SystemScopeKeys && CustomPropertyPrefix + sk in r ==>
            CustomPropertyPrefix + sk in properties ||
            (activityTags.Some? && CustomPropertyPrefix + sk in KeysOf(activityTags.value)))
  {
    var withTags := if activityTags.Some? then AddMissing(properties, activityTags.value) else properties;
    if activityTags.Some? {
      AddMissingKeeps(properties, activityTags.value);
    }
    if SupportsProperties(kind) {
      var entries := NonSystemEntries(mergedScope);
      AppliedKeeps(withTags, entries, CustomPropertyPrefix);
      forall sk, i | 0 <= i < |entries| ensures CustomPropertyPrefix + sk == CustomPropertyPrefix + entries[i].0 ==> sk == entries[i].0 {
        PrefixCancels(CustomPropertyPrefix, sk, entries[i].0);
      }
    }
  }

  /**
   * `ActivityTagsTelemetryIntitializer.Initialize`: the activity's tags are
   * added for keys not present yet; then, for items with properties, the
   * non-system scope entries are applied with the "prop__" prefix.
   */
  method ActivityTagsInitialize(telemetry: Telemetry, currentActivity: Diagnostics.Activity?,
                                mergedScope: seq<(string, ScopeValue)>)
    returns (outcome: Outcome)
    modifies telemetry`properties
    ensures var r := ActivityTagsApplied(old(telemetry.properties), telemetry.kind,
                                         if currentActivity != null then Some(currentActivity.tags) else None, mergedScope);
      && telemetry.properties == r.properties
      && outcome == if r.failedKey.Some? then Threw(ArgumentDuplicateKey(r.failedKey.value)) else Done
  {
    if currentActivity != null {
      telemetry.properties := CopyMissing(telemetry.properties, currentActivity.tags);
    }
    outcome := Done;
    if SupportsProperties(telemetry.kind) {
      var scopeProperties := NonSystemEntries(mergedScope);
      outcome := ApplyProperties(telemetry, scopeProperties, CustomPropertyPrefix);
    }
  }

  /** The properties after `MyTelemetryInitializer.Initialize`, or the exception it throws. */
  function ScopeCategoryAndLogLevel(properties: map<string, string>, currentScope: Option<map<string, ScopeValue>>)
    : (r: (map<string, string>, Outcome))
    ensures forall k :: k != CategoryNameKey && k != LogLevelKey ==>
      (k in r.0 <==> k in properties) && (k in r.0 ==> r.0[k] == properties[k])
    ensures r.1.Threw? ==> r.1.error == NullReference
  {
    match currentScope
    case None => (properties, Done)
    case Some(state) =>
      if CategoryNameKey in state && state[CategoryNameKey].SNull? then (properties, Threw(NullReference))
      else
        var withCategory :=
          if CategoryNameKey in state then properties[CategoryNameKey := ObjectToString(state[CategoryNameKey]).value]
          else properties;
        if LogLevelKey in state && state[LogLevelKey].SNull? then (withCategory, Threw(NullReference))
        else if LogLevelKey in state then (withCategory[LogLevelKey := ObjectToString(state[LogLevelKey]).value], Done)
        else (withCategory, Done)
  }

  /**
   * With a current scope holding non-null Category and LogLevel values, both
   * properties are overwritten with their text whatever was there; a key the
   * scope lacks keeps its old property; a null value throws.
   */
  lemma ScopeOverwrites(properties: map<string, string>, state: map<string, ScopeValue>)
    ensures var r := ScopeCategoryAndLogLevel(properties, Some(state));
      && (r.1.Done? <==> (CategoryNameKey in state ==> !state[CategoryNameKey].SNull?) &&
                          (LogLevelKey in state ==> !state[LogLevelKey].SNull?))
      && (CategoryNameKey in state && !state[CategoryNameKey].SNull? ==>
            CategoryNameKey in r.0 && Some(r.0[CategoryNameKey]) == ObjectToString(state[CategoryNameKey]))
      && (r.1.Done? && LogLevelKey in state ==>
            LogLevelKey in r.0 && Some(r.0[LogLevelKey]) == ObjectToString(state[LogLevelKey]))
      && (CategoryNameKey !in state ==> (CategoryNameKey in r.0 <==> CategoryNameKey in properties))
      && (CategoryNameKey !in state && CategoryNameKey in r.0 ==> r.0[CategoryNameKey] == properties[CategoryNameKey])
      && (LogLevelKey !in state ==> (LogLevelKey in r.0 <==> LogLevelKey in properties))
      && (LogLevelKey !in state && LogLevelKey in r.0 ==> r.0[LogLevelKey] == properties[LogLevelKey])
      && (forall k :: k != CategoryNameKey && k != LogLevelKey ==>
            (k in r.0 <==> k in properties) && (k in r.0 ==> r.0[k] == properties[k]))
  {
  }

  /**
   * `MyTelemetryInitializer.Initialize` with the innermost logger scope passed in:
   * Category and then LogLevel are overwritten from the scope's state when present.
   */
  method MyInitialize(telemetry: Telemetry, currentScope: Option<map<string, ScopeValue>>) returns (outcome: Outcome)
    modifies telemetry`properties
    ensures (telemetry.properties, outcome) == ScopeCategoryAndLogLevel(old(telemetry.properties), currentScope)
  {
    outcome := Done;
    if currentScope.Some? {
      var state := currentScope.value;
      if CategoryNameKey in state {
        var category := ObjectToString(state[CategoryNameKey]);
        if category.None? {
          return Threw(NullReference);
        }
        telemetry.properties := telemetry.properties[CategoryNameKey := category.value];
      }
      if LogLevelKey in state {
        var logLevel := ObjectToString(state[LogLevelKey]);
        if logLevel.None? {
          return Threw(NullReference);
        }
        telemetry.properties := telemetry.properties[LogLevelKey := logLevel.value];
      }
    }
  }
}

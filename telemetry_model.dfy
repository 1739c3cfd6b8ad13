/**
 * The Application Insights telemetry items the WebJobs initializers and the
 * request-tracking module fill in, the logger-scope values they copy from,
 * and the dictionary idiom they share: add a key only if it is not present
 * yet, so the first occurrence of a key wins and existing entries survive.
 */
module TelemetryModel {
  import opened Wrappers
  import opened Strings

  /** The concrete class of an `ITelemetry` item. */
  datatype TelemetryKind = Request | Dependency | Trace | Event | ExceptionItem | Metric | SessionState

  /** Whether items of this kind implement `ISupportProperties`. */
  predicate SupportsProperties(kind: TelemetryKind) {
    kind != SessionState
  }

  /** A telemetry item; `null` fields of the SDK are `None`. */
  class Telemetry {
    const kind: TelemetryKind
    var id: Option<string>
    /** `Context.Cloud.RoleInstance`, `Context.Location.Ip`, `Context.Operation.{Id, ParentId, Name}`. */
    var roleInstance: Option<string>
    var locationIp: Option<string>
    var operationId: Option<string>
    var operationParentId: Option<string>
    var operationName: Option<string>
    /**
     * `Context.Properties`; for an item implementing `ISupportProperties` its
     * `Properties` is this same dictionary.
     */
    var properties: map<string, string>
    /** `RequestTelemetry.Name`, `ResponseCode`, `Success`, `Source`. */
    var name: Option<string>
    var responseCode: Option<string>
    var success: Option<bool>
    var source: Option<string>

    constructor (kind: TelemetryKind)
      ensures this.kind == kind
      ensures id == None && roleInstance == None && locationIp == None
      ensures operationId == None && operationParentId == None && operationName == None
      ensures properties == map[]
      ensures name == None && responseCode == None && success == None && source == None
    {
      this.kind := kind;
      id, roleInstance, locationIp := None, None, None;
      operationId, operationParentId, operationName := None, None, None;
      properties := map[];
      name, responseCode, success, source := None, None, None, None;
    }
  }

  // ---- logger-scope keys ----

  const CategoryNameKey: string := "Category"
  const LogLevelKey: string := "LogLevel"
  const OriginalFormatKey: string := "{OriginalFormat}"
  const SucceededKey: string := "Succeeded"
  const CustomPropertyPrefix: string := "prop__"
  const EventKey: string := "MS_Event"
  const FunctionInvocationIdKey: string := "MS_FunctionInvocationId"
  const FunctionNameKey: string := "MS_FunctionName"
  const HostInstanceIdKey: string := "MS_HostInstanceId"

  // ---- logger-scope values ----

  /** A point in time already converted to UTC (`ToUniversalTime()` / `UtcDateTime`, outside this model). */
  datatype Instant = Instant(year: nat, month: nat, day: nat, hour: nat, minute: nat, second: nat, millisecond: nat)

  type UtcTime = t: Instant |
    1 <= t.year <= 9999 && 1 <= t.month <= 12 && 1 <= t.day <= 31 &&
    t.hour < 24 && t.minute < 60 && t.second < 60 && t.millisecond < 1000
    witness Instant(1, 1, 1, 0, 0, 0, 0)

  /**
   * An `object` held in a logger scope. Date values carry their UTC reading and
   * the text their own `ToString()` gives (culture-dependent, outside this model).
   */
  datatype ScopeValue =
    | SNull
    | SString(str: string)
    | SBool(flag: bool)
    | SInt(number: int)
    | SDateTime(utc: UtcTime, display: string)
    | SDateTimeOffset(utc: UtcTime, display: string)
    | SOther(display: string)

  /** `value.ToString()`; `None` for a null value, on which the call throws. */
  function ObjectToString(v: ScopeValue): (r: Option<string>)
    ensures r.None? <==> v.SNull?
  {
    match v
    case SNull => None
    case SString(s) => Some(s)
    case SBool(b) => Some(if b then "True" else "False")
    case SInt(i) => Some(IntToString(i))
    case SDateTime(_, d) => Some(d)
    case SDateTimeOffset(_, d) => Some(d)
    case SOther(d) => Some(d)
  }

  lemma Pow10Values()
    ensures Pow10(2) == 100 && Pow10(3) == 1000 && Pow10(4) == 10000
  {
    assert Pow10(1) == 10;
  }

  /** The fixed format "yyyy'-'MM'-'dd'T'HH':'mm':'ss'.'fffK" of a UTC time ('K' is "Z"). */
  function FormatUtc(t: UtcTime): string {
    Pow10Values();
    PadDigits(t.year, 4) + "-" + PadDigits(t.month, 2) + "-" + PadDigits(t.day, 2) + "T" +
    PadDigits(t.hour, 2) + ":" + PadDigits(t.minute, 2) + ":" + PadDigits(t.second, 2) + "." +
    PadDigits(t.millisecond, 3) + "Z"
  }

  /**
   * The formatted text is 24 characters with the separators in fixed places, and
   * every field reads back as the time's own field.
   */
  lemma FormatUtcReadsBack(t: UtcTime)
    ensures var s := FormatUtc(t);
      && |s| == 24
      && s[4] == '-' && s[7] == '-' && s[10] == 'T' && s[13] == ':' && s[16] == ':' && s[19] == '.' && s[23] == 'Z'
      && DecimalValue(s[0..4]) == t.year && DecimalValue(s[5..7]) == t.month && DecimalValue(s[8..10]) == t.day
      && DecimalValue(s[11..13]) == t.hour && DecimalValue(s[14..16]) == t.minute
      && DecimalValue(s[17..19]) == t.second && DecimalValue(s[20..23]) == t.millisecond
  {
    Pow10Values();
    var s := FormatUtc(t);
    assert s[0..4] == PadDigits(t.year, 4);
    assert s[5..7] == PadDigits(t.month, 2);
    assert s[8..10] == PadDigits(t.day, 2);
    assert s[11..13] == PadDigits(t.hour, 2);
    assert s[14..16] == PadDigits(t.minute, 2);
    assert s[17..19] == PadDigits(t.second, 2);
    assert s[20..23] == PadDigits(t.millisecond, 3);
    PadDigitsRoundTrip(t.year, 4);
    PadDigitsRoundTrip(t.month, 2);
    PadDigitsRoundTrip(t.day, 2);
    PadDigitsRoundTrip(t.hour, 2);
    PadDigitsRoundTrip(t.minute, 2);
    PadDigitsRoundTrip(t.second, 2);
    PadDigitsRoundTrip(t.millisecond, 3);
  }

  // ---- first key wins ----

  /** The dictionary after `if (!d.ContainsKey(k)) d[k] = v` for each pair in order. */
  function AddMissing<K, V>(m: map<K, V>, kvs: seq<(K, V)>): map<K, V>
    decreases |kvs|
  {
    if kvs == [] then m
    else AddMissing(if kvs[0].0 in m then m else m[kvs[0].0 := kvs[0].1], kvs[1..])
  }

  /** The keys of a sequence of pairs. */
  function KeysOf<K, V>(kvs: seq<(K, V)>): set<K> {
    set i | 0 <= i < |kvs| :: kvs[i].0
  }

  /** Keys already present keep their values; the keys are the old ones plus the pairs' keys. */
  lemma {:induction false} AddMissingKeeps<K, V>(m: map<K, V>, kvs: seq<(K, V)>)
    ensures forall k :: k in m ==> k in AddMissing(m, kvs) && AddMissing(m, kvs)[k] == m[k]
    ensures AddMissing(m, kvs).Keys == m.Keys + KeysOf(kvs)
    decreases |kvs|
  {
    if kvs != [] {
      var m' := if kvs[0].0 in m then m else m[kvs[0].0 := kvs[0].1];
      AddMissingKeeps(m', kvs[1..]);
      assert m'.Keys == m.Keys + {kvs[0].0};
      assert KeysOf(kvs) == {kvs[0].0} + KeysOf(kvs[1..]) by {
        forall k | k in KeysOf(kvs) ensures k in {kvs[0].0} + KeysOf(kvs[1..]) {
          var i :| 0 <= i < |kvs| && kvs[i].0 == k;
          if i > 0 {
            assert kvs[1..][i - 1].0 == k;
          }
        }
        forall k | k in KeysOf(kvs[1..]) ensures k in KeysOf(kvs) {
          var i :| 0 <= i < |kvs[1..]| && kvs[1..][i].0 == k;
          assert kvs[i + 1].0 == k;
        }
      }
    }
  }

  /** A key not present before gets the value of its first occurrence among the pairs. */
  lemma {:induction false} AddMissingFirstWins<K, V>(m: map<K, V>, kvs: seq<(K, V)>, i: nat)
    requires i < |kvs| && kvs[i].0 !in m
    requires forall j :: 0 <= j < i ==> kvs[j].0 != kvs[i].0
    ensures kvs[i].0 in AddMissing(m, kvs) && AddMissing(m, kvs)[kvs[i].0] == kvs[i].1
    decreases i
  {
    var m' := if kvs[0].0 in m then m else m[kvs[0].0 := kvs[0].1];
    if i == 0 {
      AddMissingKeeps(m', kvs[1..]);
    } else {
      assert kvs[i].0 !in m';
      AddMissingFirstWins(m', kvs[1..], i - 1);
    }
  }

  /**
   * The copying loop of the initializers: a `foreach` over the pairs that adds
   * each key not yet present.
   */
  method CopyMissing<K, V>(m: map<K, V>, kvs: seq<(K, V)>) returns (r: map<K, V>)
    ensures r == AddMissing(m, kvs)
  {
    r := m;
    var i := 0;
    while i < |kvs|
      invariant 0 <= i <= |kvs|
      invariant AddMissing(r, kvs[i..]) == AddMissing(m, kvs)
    {
      assert kvs[i..][1..] == kvs[i + 1..];
      if kvs[i].0 !in r {
        r := r[kvs[i].0 := kvs[i].1];
      }
      i := i + 1;
    }
  }
}

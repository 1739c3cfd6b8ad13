/**
 * The slice of Newtonsoft.Json the causality code touches: JSON values with
 * their token type, a mutable `JObject`, and the parse/serialize pair of the
 * JSON library, which is outside this model and enters as a parameter.
 */
module Json {

  /** A JSON value; `JTokenType.String` is exactly the `JString` case. */
  datatype Json =
    | JString(str: string)
    | JInteger(number: int)
    | JBool(flag: bool)
    | JNull
    | JArray(items: seq<Json>)
    | JObject(members: map<string, Json>)

  /** What `JsonSerialization.ParseJObject` does with a text: an object, `null`, or an exception. */
  datatype ParseOutcome = Parsed(fields: map<string, Json>) | ParsedNull | ParseFailed

  /**
   * The JSON library: how a text parses into a top-level object and how an
   * object is written out as text. Both are foreign code.
   */
  datatype JsonCodec = JsonCodec(parse: string -> ParseOutcome, serialize: map<string, Json> -> string)

  /** The one property of the library the model relies on: writing an object and reading it back gives it back. */
  ghost predicate RoundTrips(codec: JsonCodec) {
    forall fields :: codec.parse(codec.serialize(fields)) == Parsed(fields)
  }

  /** A `JObject` whose members are updated in place by `token[key] = value`. */
  class JObject {
    var fields: map<string, Json>

    constructor (fields: map<string, Json>)
      ensures this.fields == fields
    {
      this.fields := fields;
    }

    /** The indexer setter: adds the member or replaces its value. */
    method Set(key: string, value: Json)
      modifies this
      ensures fields == old(fields)[key := value]
    {
      fields := fields[key := value];
    }
  }
}

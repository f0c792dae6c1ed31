/** The parts of the language-model client that decide what a reply means:
    the schema check that gates structured output, the category
    normalisation of `classify`, and the shapes `extract_slot` and `rephrase`
    return. The HTTP request itself is an oracle. */
module LlmClient {
  import opened Outcomes
  import opened Json

  /** What the client asks the model; the prompt text is a function of these
      fields. */
  datatype Query =
    | SlotQuery(text: string, slotName: string)
    | ClassifyQuery(text: string, categories: seq<string>)
    | RephraseQuery(content: string, tone: string)

  /** The HTTP response to a request: a body that decodes, with the JSON
      object `_extract_json` finds in its generated text (empty when it finds
      none), or a body that `response.json()` cannot decode. */
  datatype Answer = Decoded(fields: map<string, Json>) | Undecodable

  /** The model's answer, per query. A query that is not a key stands for a
      request that raised (network or HTTP error, or no model configured). */
  type Oracle = map<Query, Answer>

  /** No model at all: every request raises. */
  const Offline: Oracle := map[]

  /** A JSON schema as the client uses it: the required fields and, per
      declared property, the value of its `type` entry (`JNull` when the
      property has none). */
  datatype Schema = Schema(required: seq<string>, propertyTypes: map<string, Json>)

  datatype LlmError =
    | RequestFailed
    | MissingField(field: string)
    | WrongType

  /** The runtime-type test of `_validate_schema` for one value: only the
      three type names "string", "number" and "boolean" are checked, and a
      Python `bool` counts as a number. */
  predicate TypeMatches(declared: Json, v: Json)
  {
    (declared == JString("string") ==> v.JString?) &&
    (declared == JString("number") ==> IsNumber(v)) &&
    (declared == JString("boolean") ==> v.JBool?)
  }

  /** The first required field the data lacks. */
  function FirstMissing(required: seq<string>, data: map<string, Json>): (r: Option<string>)
    ensures r.None? <==> forall f :: f in required ==> f in data
    ensures r.Some? ==> r.value in required && r.value !in data
    ensures r.Some? ==> exists i :: 0 <= i < |required| && required[i] == r.value &&
                                    forall j :: 0 <= j < i ==> required[j] in data
  {
    if |required| == 0 then None
    else if required[0] !in data then Some(required[0])
    else
      var rest := FirstMissing(required[1..], data);
      if rest.Some? then
        var i :| 0 <= i < |required[1..]| && required[1..][i] == rest.value &&
                 forall j :: 0 <= j < i ==> required[1..][j] in data;
        assert required[i + 1] == rest.value;
        rest
      else rest
  }

  /** `_validate_schema`: passes exactly when every required field is present
      and every value whose property declares one of the three checked types
      has that type; a missing field is reported before any type error. */
  function ValidateSchema(data: map<string, Json>, schema: Schema): (r: Result<bool, LlmError>)
    ensures r.Ok? <==>
              (forall f :: f in schema.required ==> f in data) &&
              (forall k :: k in data && k in schema.propertyTypes ==> TypeMatches(schema.propertyTypes[k], data[k]))
    ensures r.Ok? ==> r.value
    ensures r.Raised? && r.error.MissingField? ==> r.error.field in schema.required && r.error.field !in data
    ensures (exists f :: f in schema.required && f !in data) ==> r.Raised? && r.error.MissingField?
  {
    match FirstMissing(schema.required, data)
    case Some(f) => Raised(MissingField(f))
    case None =>
      if exists k :: k in data && k in schema.propertyTypes && !TypeMatches(schema.propertyTypes[k], data[k])
      then Raised(WrongType)
      else Ok(true)
  }

  /** A property whose type is a list of names, or that names no type, never
      fails the check, and neither does a key the schema does not declare. */
  lemma UncheckedProperties(data: map<string, Json>, schema: Schema)
    requires forall f :: f in schema.required ==> f in data
    requires forall k :: k in data && k in schema.propertyTypes ==>
               schema.propertyTypes[k].JArray? || schema.propertyTypes[k] == JNull
    ensures ValidateSchema(data, schema) == Ok(true)
  {
  }

  /** `True` passes a "number" check, because `bool` is a subtype of `int`. */
  lemma BoolPassesNumber(field: string)
    ensures ValidateSchema(map[field := JBool(true)], Schema([field], map[field := JString("number")])) == Ok(true)
  {
  }

  /** The reply `generate_structured` returns for an undecodable body. */
  function ParseFailure(): map<string, Json>
  {
    map["error" := JString("Failed to parse structured output")]
  }

  /** The dictionary an answer stands for: the decoded object, or the
      parse-failure reply. */
  function Reply(a: Answer): map<string, Json>
  {
    match a
    case Decoded(d) => d
    case Undecodable => ParseFailure()
  }

  /** `generate_structured` after the request: an undecodable body gives the
      parse-failure reply, which no schema check sees; a decoded reply is
      returned as it is, unless a schema was given, the reply is non-empty,
      and the reply fails the schema, in which case the error propagates. */
  function GenerateStructured(oracle: Oracle, q: Query, schema: Option<Schema>): (r: Result<map<string, Json>, LlmError>)
    ensures q !in oracle ==> r == Raised(RequestFailed)
    ensures r.Ok? ==> q in oracle && r.value == Reply(oracle[q])
    ensures q in oracle && oracle[q] == Undecodable ==> r == Ok(ParseFailure())
    ensures q in oracle && oracle[q] == Decoded(map[]) ==> r == Ok(map[])
    ensures q in oracle && schema.None? ==> r == Ok(Reply(oracle[q]))
    ensures r.Ok? && schema.Some? && oracle[q].Decoded? && r.value != map[] ==> ValidateSchema(r.value, schema.value).Ok?
    ensures q in oracle && schema.Some? && ValidateSchema(Reply(oracle[q]), schema.value).Ok? ==> r.Ok?
  {
    if q !in oracle then Raised(RequestFailed)
    else
      match oracle[q]
      case Undecodable => Ok(ParseFailure())
      case Decoded(d) =>
        if schema.Some? && |d| > 0 then
          match ValidateSchema(d, schema.value)
          case Raised(e) => Raised(e)
          case Ok(_) => Ok(d)
        else Ok(d)
  }

  /** The schema `classify` demands: a string `category`. */
  function ClassifySchema(): Schema
  {
    Schema(["category"], map["category" := JString("string")])
  }

  /** The schema `extract_slot` demands: `value` (a list of allowed types,
      so never checked) and a number `confidence`. */
  function SlotSchema(): Schema
  {
    Schema(["value", "confidence"],
           map["value" := JArray([JString("string"), JString("number"), JString("boolean"), JNull]),
               "confidence" := JString("number")])
  }

  /** `classify`: the reply's category when it is one of `categories`, and
      "OUT_OF_SCOPE" otherwise, including when the reply has no category. */
  function Classify(oracle: Oracle, text: string, categories: seq<string>): (r: Result<string, LlmError>)
    ensures r.Ok? ==> r.value in categories || r.value == "OUT_OF_SCOPE"
    ensures ClassifyQuery(text, categories) !in oracle ==> r.Raised?
    ensures r.Ok? && r.value != "OUT_OF_SCOPE" ==>
              Get(Reply(oracle[ClassifyQuery(text, categories)]), "category") == Some(JString(r.value))
  {
    match GenerateStructured(oracle, ClassifyQuery(text, categories), Some(ClassifySchema()))
    case Raised(e) => Raised(e)
    case Ok(d) =>
      var c := if "category" in d then d["category"] else JString("OUT_OF_SCOPE");
      if c.JString? && c.s in categories then Ok(c.s) else Ok("OUT_OF_SCOPE")
  }

  /** A reply holding just a string category is classified as that
      category when it is one of the choices, and as OUT_OF_SCOPE
      otherwise. */
  lemma ClassifyReadsCategory(oracle: Oracle, text: string, categories: seq<string>, c: string)
    requires ClassifyQuery(text, categories) in oracle
    requires oracle[ClassifyQuery(text, categories)] == Decoded(map["category" := JString(c)])
    ensures Classify(oracle, text, categories) == Ok(if c in categories then c else "OUT_OF_SCOPE")
  {
    var d := Reply(oracle[ClassifyQuery(text, categories)]);
    assert forall k :: k in d && k in ClassifySchema().propertyTypes ==>
             TypeMatches(ClassifySchema().propertyTypes[k], d[k]);
    assert ValidateSchema(d, ClassifySchema()).Ok?;
  }

  /** A body that cannot be decoded is classified as OUT_OF_SCOPE: the
      parse-failure reply skips the schema check and has no category. */
  lemma UndecodableIsOutOfScope(oracle: Oracle, text: string, categories: seq<string>)
    requires ClassifyQuery(text, categories) in oracle && oracle[ClassifyQuery(text, categories)] == Undecodable
    ensures Classify(oracle, text, categories) == Ok("OUT_OF_SCOPE")
  {
  }

  /** A well-formed slot reply: empty, the parse-failure reply, or holding a
      value and a numeric confidence. */
  predicate SlotShaped(d: map<string, Json>)
  {
    d == map[] || d == ParseFailure() || ("value" in d && "confidence" in d && IsNumber(d["confidence"]))
  }

  /** `extract_slot`: whatever it returns has the slot shape. */
  function ExtractSlot(oracle: Oracle, text: string, slotName: string): (r: Result<map<string, Json>, LlmError>)
    ensures r.Ok? ==> SlotShaped(r.value)
    ensures SlotQuery(text, slotName) !in oracle ==> r.Raised?
  {
    GenerateStructured(oracle, SlotQuery(text, slotName), Some(SlotSchema()))
  }

  /** `result.get("confidence", 0.0)` of a slot reply. */
  function SlotConfidence(d: map<string, Json>): real
    requires SlotShaped(d)
  {
    if "confidence" in d then AsReal(d["confidence"]) else 0.0
  }

  /** `result.get("value")` of a slot reply; a missing value reads as None. */
  function SlotValue(d: map<string, Json>): Json
  {
    if "value" in d then d["value"] else JNull
  }

  /** `rephrase`: the reply's `response` entry when it has one, and the
      content itself otherwise. */
  function Rephrase(oracle: Oracle, content: string, tone: string): (r: Result<Json, LlmError>)
    ensures RephraseQuery(content, tone) !in oracle <==> r.Raised?
    ensures r.Ok? && "response" !in Reply(oracle[RephraseQuery(content, tone)]) ==> r.value == JString(content)
  {
    match GenerateStructured(oracle, RephraseQuery(content, tone), None)
    case Raised(e) => Raised(e)
    case Ok(d) => if "response" in d then Ok(d["response"]) else Ok(JString(content))
  }
}

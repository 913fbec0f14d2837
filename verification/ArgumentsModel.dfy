/** The argument validator derived from an MCP tool's schema (mcp/tools.py): a
    coarsening that refuses what the schema allows in one case only, a closed schema
    that speaks for some names by pattern. */
module ArgumentsModel {
  import opened Json
  import opened Schema
  import opened SchemaClosing

  datatype Annotation = Anything | Str | Int | Float | Bool | AList | ADict

  datatype Field = Field(annotation: Annotation, required: bool)

  datatype Model = Model(fields: map<string, Field>, forbidsExtras: bool)

  // _JSON_TYPES
  function NamedType(name: string): Annotation {
    match name
    case "string" => Str
    case "integer" => Int
    case "number" => Float
    case "boolean" => Bool
    case "array" => AList
    case "object" => ADict
    case _ => Anything
  }

  // _annotation
  function Annotate(subschema: Json): Annotation {
    if subschema.JObject? && "type" in subschema.fields && subschema.fields["type"].JString? then
      NamedType(subschema.fields["type"].text)
    else
      Anything
  }

  function Properties(schema: map<string, Json>): map<string, Json> {
    if "properties" in schema && schema["properties"].JObject? then schema["properties"].fields else map[]
  }

  // `usable` says which property names can be fields of a model.
  function ModelOf(schema: map<string, Json>, usable: string -> bool): Model {
    var properties := Properties(schema);
    Model(map p | p in properties && usable(p) :: Field(Annotate(properties[p]), p in RequiredNames(schema)),
          "additionalProperties" in schema && schema["additionalProperties"] == JBool(false)
          && forall p | p in properties :: usable(p))
  }

  // arguments_model
  method DeriveModel(schema: map<string, Json>, usable: string -> bool) returns (model: Model)
    ensures model == ModelOf(schema, usable)
  {
    var properties := Properties(schema);
    var required := RequiredNames(schema);
    var fields: map<string, Field> := map[];
    var allNamesUsable := true;
    var left := properties.Keys;
    while left != {}
      invariant left <= properties.Keys
      invariant fields
                == map p | p in properties && p !in left && usable(p) :: Field(Annotate(properties[p]), p in required)
      invariant allNamesUsable <==> forall p | p in properties && p !in left :: usable(p)
      decreases left
    {
      var p :| p in left;
      left := left - {p};
      if !usable(p) {
        allNamesUsable := false;
        continue;
      }
      fields := fields[p := Field(Annotate(properties[p]), p in required)];
    }
    var closed := "additionalProperties" in schema && schema["additionalProperties"] == JBool(false) && allNamesUsable;
    model := Model(fields, closed);
  }

  // Pydantic's verdict on one value, by annotation.
  type Acceptance = (Annotation, Json) -> bool

  // All that is assumed of it: an annotation takes the values of its JSON type.
  ghost predicate Lenient(accepts: Acceptance) {
    forall v ::
      && accepts(Anything, v)
      && (v.JString? ==> accepts(Str, v))
      && (v.JNumber? ==> accepts(Float, v))
      && (v.JNumber? && v.number == v.number.Floor as real ==> accepts(Int, v))
      && (v.JBool? ==> accepts(Bool, v))
      && (v.JArray? ==> accepts(AList, v))
      && (v.JObject? ==> accepts(ADict, v))
  }

  // An optional field may be missing or null.
  predicate FieldTakes(accepts: Acceptance, field: Field, v: Json) {
    accepts(field.annotation, v) || (!field.required && v.JNull?)
  }

  predicate Accepted(accepts: Acceptance, model: Model, arguments: map<string, Json>) {
    && (forall p | p in model.fields && model.fields[p].required :: p in arguments)
    && (forall p | p in model.fields && p in arguments :: FieldTakes(accepts, model.fields[p], arguments[p]))
    && (model.forbidsExtras ==> arguments.Keys <= model.fields.Keys)
  }

  lemma TypedValuesAreTaken(accepts: Acceptance, kw: Keywords, subschema: Json, v: Json)
    requires Lenient(accepts) && Valid(false, kw, subschema, v)
    ensures accepts(Annotate(subschema), v)
  {
    if subschema.JObject? && "type" in subschema.fields && subschema.fields["type"].JString? {
      assert TypeOk(subschema.fields, v);
      assert accepts(Anything, v);
      match subschema.fields["type"].text
      case "string" =>
      case "integer" =>
      case "number" =>
      case "boolean" =>
      case "array" =>
      case "object" =>
      case _ =>
    }
  }

  // A subschema with one declared type.
  predicate Declares(subschema: Json, name: string) {
    subschema.JObject? && "type" in subschema.fields && subschema.fields["type"] == JString(name)
  }

  // Broad types are enforced: an argument that reaches the handler under a property
  // with a declared type is one that type's annotation takes, or an optional null.
  // So an integer property, say, refuses whatever is not taken for an integer.
  lemma BroadTypesAreEnforced(
      accepts: Acceptance, schema: map<string, Json>, usable: string -> bool, arguments: map<string, Json>, p: string)
    requires Accepted(accepts, ModelOf(schema, usable), arguments)
    requires p in Properties(schema) && usable(p) && p in arguments
    requires p in RequiredNames(schema) || !arguments[p].JNull?
    ensures var declared, v := Properties(schema)[p], arguments[p];
            && (Declares(declared, "string") ==> accepts(Str, v))
            && (Declares(declared, "integer") ==> accepts(Int, v))
            && (Declares(declared, "number") ==> accepts(Float, v))
            && (Declares(declared, "boolean") ==> accepts(Bool, v))
            && (Declares(declared, "array") ==> accepts(AList, v))
            && (Declares(declared, "object") ==> accepts(ADict, v))
  {
    var field := ModelOf(schema, usable).fields[p];
    assert FieldTakes(accepts, field, arguments[p]);
    assert field == Field(Annotate(Properties(schema)[p]), p in RequiredNames(schema));
  }

  // And required ones: a required property with a usable name is there.
  lemma RequiredArgumentsAreThere(
      accepts: Acceptance, schema: map<string, Json>, usable: string -> bool, arguments: map<string, Json>, p: string)
    requires Accepted(accepts, ModelOf(schema, usable), arguments)
    requires p in Properties(schema) && usable(p) && p in RequiredNames(schema)
    ensures p in arguments
  {
    assert ModelOf(schema, usable).fields[p].required;
  }

  // The derived model in terms of the schema: every required property with a
  // usable name is there, every such property has its broad type (or is an
  // optional null), and the door is closed exactly when the schema closed it and
  // every name is usable.
  lemma WhatTheModelEnforces(
      accepts: Acceptance, schema: map<string, Json>, usable: string -> bool, arguments: map<string, Json>)
    ensures var properties, required := Properties(schema), RequiredNames(schema);
            Accepted(accepts, ModelOf(schema, usable), arguments)
            <==>
            && (forall p | p in properties && usable(p) ::
                  if p in arguments then
                    accepts(Annotate(properties[p]), arguments[p]) || (p !in required && arguments[p].JNull?)
                  else
                    p !in required)
            && (ModelOf(schema, usable).forbidsExtras ==> arguments.Keys <= properties.Keys)
  {
    var model, properties := ModelOf(schema, usable), Properties(schema);
    assert forall p :: p in model.fields <==> p in properties && usable(p);
    if model.forbidsExtras {
      assert model.fields.Keys == properties.Keys;
    }
  }

  // Arguments the schema shown to the model allows reach the handler, except where
  // the door is closed on a name that is not a listed property. The schema can
  // allow such a name only by a pattern, which the derived model knows nothing of.
  lemma TheModelOnlyWidens(
      accepts: Acceptance, kw: Keywords, schema: map<string, Json>, usable: string -> bool, arguments: map<string,
          Json>)
    requires Lenient(accepts)
    requires Valid(false, kw, JObject(schema), JObject(arguments))
    ensures Accepted(accepts, ModelOf(schema, usable), arguments)
            <==> (ModelOf(schema, usable).forbidsExtras ==> arguments.Keys <= Properties(schema).Keys)
    ensures ModelOf(schema, usable).forbidsExtras ==>
              forall k | k in arguments && k !in Properties(schema) :: PatternCovers(kw, schema, k)
  {
    var properties := Properties(schema);
    WhatTheModelEnforces(accepts, schema, usable, arguments);
    assert FlatOk(kw, schema, JObject(arguments)) && FieldsOk(false, kw, JObject(schema), arguments);
    forall p | p in properties && p in arguments
      ensures accepts(Annotate(properties[p]), arguments[p])
    {
      assert PropertiesValid(false, kw, schema["properties"], arguments);
      TypedValuesAreTaken(accepts, kw, properties[p], arguments[p]);
    }
    assert ExtrasValid(false, kw, JObject(schema), arguments);
    forall k | ModelOf(schema, usable).forbidsExtras && k in arguments && k !in properties
      ensures PatternCovers(kw, schema, k)
    {
      assert !Valid(false, kw, JBool(false), arguments[k]);
    }
  }

  // So a schema that has no patterns, or leaves its door open, or has a name that
  // cannot be a field, never sees an argument it allows refused.
  lemma WithoutPatternsNothingIsRefused(
      accepts: Acceptance, kw: Keywords, schema: map<string, Json>, usable: string -> bool, arguments: map<string,
          Json>)
    requires Lenient(accepts)
    requires Valid(false, kw, JObject(schema), JObject(arguments))
    requires || "patternProperties" !in schema
             || ("additionalProperties" in schema ==> schema["additionalProperties"] != JBool(false))
             || exists p | p in Properties(schema) :: !usable(p)
    ensures Accepted(accepts, ModelOf(schema, usable), arguments)
  {
    TheModelOnlyWidens(accepts, kw, schema, usable, arguments);
  }

  // From one end to the other: arguments decoded under the provider's strict schema
  // are valid under the server's own schema, and reach the handler unless a closed
  // door shuts out a name only a pattern admits.
  lemma StrictArgumentsReachTheHandler(
      accepts: Acceptance, kw: Keywords, schema: map<string, Json>, usable: string -> bool, arguments: map<string,
          Json>)
    requires Lenient(accepts) && Positive(JObject(schema))
    requires Valid(false, kw, Close(JObject(schema)), JObject(arguments))
    ensures Valid(false, kw, JObject(schema), JObject(arguments))
    ensures Accepted(accepts, ModelOf(schema, usable), arguments)
            <==> (ModelOf(schema, usable).forbidsExtras ==> arguments.Keys <= Properties(schema).Keys)
  {
    ClosingOnlyNarrows(kw, JObject(schema), JObject(arguments));
    TheModelOnlyWidens(accepts, kw, schema, usable, arguments);
  }

  const STRINGS := JObject(map["type" := JString("string")])

  // An object of strings whose names start with x_, and nothing else.
  const PATTERNED: map<string, Json> :=
    map["type" := JString("object"),
        "patternProperties" := JObject(map["^x_" := STRINGS]),
        "additionalProperties" := JBool(false)]

  lemma StringsAreSealed()
    ensures Positive(STRINGS) && Sealed(STRINGS)
  {
    var m := STRINGS.fields;
    assert m.Keys == {"type"} && m["type"] == JString("string");
  }

  lemma PatternedIsSealed()
    ensures Positive(JObject(PATTERNED)) && Close(JObject(PATTERNED)) == JObject(PATTERNED)
  {
    var patterns := PATTERNED["patternProperties"];
    StringsAreSealed();
    assert PATTERNED.Keys == {"type", "patternProperties", "additionalProperties"};
    assert patterns.fields.Keys == {"^x_"} && patterns.fields["^x_"] == STRINGS;
    assert PositiveEach(patterns) && Sealed(patterns);
    SealedIsLeftAlone(JObject(PATTERNED));
  }

  lemma PatternedIsAllowed(kw: Keywords)
    requires kw.matches("^x_", "x_1")
    ensures Valid(false, kw, JObject(PATTERNED), JObject(map["x_1" := JString("v")]))
  {
    var patterns, fields := PATTERNED["patternProperties"], map["x_1" := JString("v")];
    assert patterns.fields.Keys == {"^x_"} && patterns.fields["^x_"] == STRINGS;
    assert PATTERNED.Keys == {"type", "patternProperties", "additionalProperties"};
    assert Valid(false, kw, STRINGS, JString("v")) by {
      assert STRINGS.fields.Keys == {"type"};
    }
    assert PatternsValid(false, kw, patterns, fields);
    assert "^x_" in patterns.fields && PatternCovers(kw, PATTERNED, "x_1");
    assert FieldsOk(false, kw, JObject(PATTERNED), fields);
  }

  // It is sealed already and allows {"x_1": "v"}, yet the derived model refuses
  // it: the promise never to reject what the schema allows needs the condition above.
  lemma PatternedArgumentsAreRefused(accepts: Acceptance, kw: Keywords, usable: string -> bool)
    requires kw.matches("^x_", "x_1")
    ensures var arguments := map["x_1" := JString("v")];
            && Positive(JObject(PATTERNED)) && Close(JObject(PATTERNED)) == JObject(PATTERNED)
            && Valid(false, kw, JObject(PATTERNED), JObject(arguments))
            && !Accepted(accepts, ModelOf(PATTERNED, usable), arguments)
  {
    hide Positive, Close, Valid;
    PatternedIsSealed();
    PatternedIsAllowed(kw);
    assert "x_1" in map["x_1" := JString("v")].Keys;
  }
}

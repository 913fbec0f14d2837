/** What a JSON Schema accepts: the validation vocabulary the platform relies on
    (JSON Schema Core 2020-12 sections 10.2.1 and 10.3; Validation 2020-12
    sections 6.1.1 and 6.5.3). */
module Schema {
  import opened Json

  /** What the rest of a dialect means: whether a pattern matches a name, and
      whether any other keyword, with its argument, holds of a value. */
  datatype Keywords = Keywords(matches: (string, string) -> bool, holds: (string, Json, Json) -> bool)

  // Keywords whose arguments hold subschemas.
  const NESTING := {"properties", "patternProperties", "additionalProperties", "items", "anyOf", "allOf"}

  predicate HasType(name: string, v: Json) {
    match name
    case "string" => v.JString?
    case "integer" => v.JNumber? && v.number == v.number.Floor as real
    case "number" => v.JNumber?
    case "boolean" => v.JBool?
    case "array" => v.JArray?
    case "object" => v.JObject?
    case "null" => v.JNull?
    case _ => false
  }

  predicate TypeOk(m: map<string, Json>, v: Json) {
    if "type" !in m then true
    else match m["type"]
      case JString(name) => HasType(name, v)
      case JArray(names) => exists i | 0 <= i < |names| :: names[i].JString? && HasType(names[i].text, v)
      case _ => true
  }

  function RequiredNames(m: map<string, Json>): set<string> {
    if "required" in m && m["required"].JArray? then
      var names := m["required"].items;
      set i | 0 <= i < |names| && names[i].JString? :: names[i].text
    else {}
  }

  predicate RequiredOk(m: map<string, Json>, v: Json) {
    v.JObject? ==> RequiredNames(m) <= v.fields.Keys
  }

  function PropertyNames(m: map<string, Json>): set<string> {
    if "properties" in m && m["properties"].JObject? then m["properties"].fields.Keys else {}
  }

  // A name that some pattern of the schema speaks for.
  predicate PatternCovers(kw: Keywords, m: map<string, Json>, name: string) {
    && "patternProperties" in m && m["patternProperties"].JObject?
    && exists p | p in m["patternProperties"].fields :: kw.matches(p, name)
  }

  predicate IsObjectSchema(m: map<string, Json>) {
    "type" in m && m["type"] == JString("object")
  }

  /** Whether `v` is valid under `s`. Read strictly, an object schema that says
      nothing about additional properties forbids them. */
  predicate Valid(strict: bool, kw: Keywords, s: Json, v: Json)
    decreases s, 2
  {
    match s
    case JBool(flag) => flag
    case JObject(m) =>
      && FlatOk(kw, m, v)
      && (v.JObject? ==> FieldsOk(strict, kw, s, v.fields))
      && (v.JArray? ==> ItemsOk(strict, kw, s, v.items))
      && CombinedOk(strict, kw, s, v)
    case _ => true
  }

  predicate FlatOk(kw: Keywords, m: map<string, Json>, v: Json) {
    TypeOk(m, v) && RequiredOk(m, v) && OthersHold(kw, m, v)
  }

  predicate FieldsOk(strict: bool, kw: Keywords, s: Json, fields: map<string, Json>)
    requires s.JObject?
    decreases s, 1
  {
    && ("properties" in s.fields ==> PropertiesValid(strict, kw, s.fields["properties"], fields))
    && ("patternProperties" in s.fields ==> PatternsValid(strict, kw, s.fields["patternProperties"], fields))
    && ExtrasValid(strict, kw, s, fields)
  }

  predicate ItemsOk(strict: bool, kw: Keywords, s: Json, items: seq<Json>)
    requires s.JObject?
    decreases s, 1
  {
    "items" in s.fields ==> forall i | 0 <= i < |items| :: Valid(strict, kw, s.fields["items"], items[i])
  }

  predicate CombinedOk(strict: bool, kw: Keywords, s: Json, v: Json)
    requires s.JObject?
    decreases s, 1
  {
    && ("anyOf" in s.fields ==> AnyValid(strict, kw, s.fields["anyOf"], v))
    && ("allOf" in s.fields ==> AllValid(strict, kw, s.fields["allOf"], v))
  }

  predicate OthersHold(kw: Keywords, m: map<string, Json>, v: Json) {
    forall k | k in m && k !in NESTING && k != "type" && k != "required" :: kw.holds(k, m[k], v)
  }

  predicate PropertiesValid(strict: bool, kw: Keywords, properties: Json, fields: map<string, Json>)
    decreases properties, 0
  {
    properties.JObject? ==>
      forall k | k in properties.fields && k in fields :: Valid(strict, kw, properties.fields[k], fields[k])
  }

  // A field is judged under every pattern its name matches.
  predicate PatternsValid(strict: bool, kw: Keywords, patterns: Json, fields: map<string, Json>)
    decreases patterns, 0
  {
    patterns.JObject? ==>
      forall p, k | p in patterns.fields && k in fields && kw.matches(p, k) ::
        Valid(strict, kw, patterns.fields[p], fields[k])
  }

  predicate AnyValid(strict: bool, kw: Keywords, schemas: Json, v: Json)
    decreases schemas, 0
  {
    schemas.JArray? ==> exists i | 0 <= i < |schemas.items| :: Valid(strict, kw, schemas.items[i], v)
  }

  predicate AllValid(strict: bool, kw: Keywords, schemas: Json, v: Json)
    decreases schemas, 0
  {
    schemas.JArray? ==> forall i | 0 <= i < |schemas.items| :: Valid(strict, kw, schemas.items[i], v)
  }

  // additionalProperties: what the fields must be that are neither listed under
  // `properties` nor matched by a pattern.
  predicate ExtrasValid(strict: bool, kw: Keywords, s: Json, fields: map<string, Json>)
    requires s.JObject?
    decreases s, 0
  {
    forall k | k in fields && k !in PropertyNames(s.fields) && !PatternCovers(kw, s.fields, k) ::
      if "additionalProperties" in s.fields then Valid(strict, kw, s.fields["additionalProperties"], fields[k])
      else !(strict && IsObjectSchema(s.fields))
  }
}

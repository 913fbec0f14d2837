/** `strict_json_schema` (llm/anthropic_provider.py) and what it does to meaning. */
module SchemaClosing {
  import opened Json
  import opened Schema

  // The two key assignments of _close_objects, on the dictionary it just built.
  function Closed(m: map<string, Json>): map<string, Json> {
    var sealed := if IsObjectSchema(m)
        && "additionalProperties" !in m then m["additionalProperties" := JBool(false)] else m;
    if IsObjectSchema(sealed) && "properties" in sealed && "required" !in sealed then sealed["required" := JArray([])]
    else sealed
  }

  // _close_objects
  function Close(node: Json): Json {
    match node
    case JObject(m) => JObject(Closed(map k | k in m :: Close(m[k])))
    case JArray(items) => JArray(seq(|items|, i requires 0 <= i < |items| => Close(items[i])))
    case _ => node
  }

  function CloseEach(m: map<string, Json>): map<string, Json> {
    map k | k in m :: Close(m[k])
  }

  // What the provider asks of a schema: every object in it says whether it takes
  // other fields, and states its required ones.
  predicate Sealed(node: Json) {
    match node
    case JObject(m) =>
      && (IsObjectSchema(m) ==> "additionalProperties" in m && ("properties" in m ==> "required" in m))
      && (forall k | k in m :: Sealed(m[k]))
    case JArray(items) => forall i | 0 <= i < |items| :: Sealed(items[i])
    case _ => true
  }

  // Closing seals every object, at any depth of any JSON document.
  lemma {:induction false} ClosingSealsEveryObject(node: Json)
    ensures Sealed(Close(node))
  {
    match node
    case JObject(m) =>
      forall k | k in m
        ensures Sealed(Close(m[k]))
      {
        ClosingSealsEveryObject(m[k]);
      }
      EachIsSealed(CloseEach(m));
    case JArray(items) =>
      forall i | 0 <= i < |items|
        ensures Sealed(Close(items[i]))
      {
        ClosingSealsEveryObject(items[i]);
      }
    case _ =>
  }

  lemma EachIsSealed(m: map<string, Json>)
    requires forall k | k in m :: Sealed(m[k])
    ensures Sealed(JObject(Closed(m)))
  {
    assert Sealed(JArray([]));
  }

  // And touches nothing else: a sealed document is left as it is.
  lemma {:induction false} SealedIsLeftAlone(node: Json)
    requires Sealed(node)
    ensures Close(node) == node
  {
    match node
    case JObject(m) =>
      forall k | k in m
        ensures Close(m[k]) == m[k]
      {
        SealedIsLeftAlone(m[k]);
      }
      assert CloseEach(m) == m;
    case JArray(items) =>
      forall i | 0 <= i < |items|
        ensures Close(items[i]) == items[i]
      {
        SealedIsLeftAlone(items[i]);
      }
    case _ =>
  }

  // So closing twice is closing once.
  lemma ClosingIsIdempotent(node: Json)
    ensures Close(Close(node)) == Close(node)
  {
    ClosingSealsEveryObject(node);
    SealedIsLeftAlone(Close(node));
  }

  /** Schemas whose nested schemas all sit under `properties`, `patternProperties`,
      `additionalProperties`, `items`, `anyOf` or `allOf`: no other keyword's
      argument holds an object that closing would touch. */
  predicate Positive(s: Json)
    decreases s, 1
  {
    match s
    case JBool(_) => true
    case JObject(m) =>
      && ("properties" in m ==> PositiveEach(m["properties"]))
      && ("patternProperties" in m ==> PositiveEach(m["patternProperties"]))
      && ("additionalProperties" in m ==> Positive(m["additionalProperties"]))
      && ("items" in m ==> Positive(m["items"]))
      && ("anyOf" in m ==>
            m["anyOf"].JArray? && forall i | 0 <= i < |m["anyOf"].items| :: Positive(m["anyOf"].items[i]))
      && ("allOf" in m ==>
            m["allOf"].JArray? && forall i | 0 <= i < |m["allOf"].items| :: Positive(m["allOf"].items[i]))
      && (forall k | k in m && k !in NESTING :: Close(m[k]) == m[k])
    case _ => false
  }

  predicate PositiveEach(properties: Json)
    decreases properties, 0
  {
    properties.JObject? && forall k | k in properties.fields :: Positive(properties.fields[k])
  }

  // The entries of a closed schema: those of the original, closed one by one, and
  // at most two more.
  lemma EntriesOfClosed(m: map<string, Json>)
    ensures var c := Close(JObject(m)).fields;
            && (forall k | k in m :: k in c && c[k] == Close(m[k]))
            && (forall k | k in c && k !in m ::
                  (k == "additionalProperties" && c[k] == JBool(false)) || (k == "required" && c[k] == JArray([])))
            && ("additionalProperties" in c <==> "additionalProperties" in m || IsObjectSchema(CloseEach(m)))
  {}

  // --- Closing is the strict reading ------------------------------------------------------

  // Two schemas that differ only in nested schemas, a sealed door and an empty
  // list of required names.
  predicate SameButNesting(m: map<string, Json>, c: map<string, Json>) {
    && (forall k | k in m && k !in NESTING :: k in c && c[k] == m[k])
    && (forall k | k in c && k !in m :: k == "additionalProperties" || (k == "required" && c[k] == JArray([])))
  }

  lemma ClosedIsTheSameButNesting(m: map<string, Json>)
    requires Positive(JObject(m))
    ensures SameButNesting(m, Close(JObject(m)).fields)
    ensures IsObjectSchema(CloseEach(m)) <==> IsObjectSchema(m)
  {
    hide Close, PositiveEach;
    EntriesOfClosed(m);
    assert forall k | k in m && k !in NESTING :: Close(m[k]) == m[k];
    assert "type" in m ==> CloseEach(m)["type"] == m["type"];
  }

  lemma TypesAgree(m: map<string, Json>, c: map<string, Json>, v: Json)
    requires SameButNesting(m, c)
    ensures TypeOk(c, v) <==> TypeOk(m, v)
  {
    assert "type" in c <==> "type" in m;
  }

  lemma RequiredAgrees(m: map<string, Json>, c: map<string, Json>, v: Json)
    requires SameButNesting(m, c)
    ensures RequiredOk(c, v) <==> RequiredOk(m, v)
  {
    assert "required" in m ==> c["required"] == m["required"];
    assert RequiredNames(c) == RequiredNames(m);
  }

  lemma OthersAgree(kw: Keywords, m: map<string, Json>, c: map<string, Json>, v: Json)
    requires SameButNesting(m, c)
    ensures OthersHold(kw, c, v) <==> OthersHold(kw, m, v)
  {
    forall k | k !in NESTING && k != "required"
      ensures k in c <==> k in m
      ensures k in m ==> c[k] == m[k]
    {}
  }

  // A dictionary of schemas is not itself taken for an object schema.
  lemma ClosedOneByOne(schemas: Json)
    requires PositiveEach(schemas)
    ensures Close(schemas) == JObject(CloseEach(schemas.fields))
  {
    var ps := schemas.fields;
    assert !IsObjectSchema(CloseEach(ps)) by {
      if "type" in ps {
        assert Positive(ps["type"]);
      }
    }
  }

  lemma {:induction false} PatternsAgree(kw: Keywords, patterns: Json, fields: map<string, Json>)
    requires PositiveEach(patterns)
    ensures PatternsValid(false, kw, Close(patterns), fields) <==> PatternsValid(true, kw, patterns, fields)
    decreases patterns, 0
  {
    var ps := patterns.fields;
    ClosedOneByOne(patterns);
    forall p, k | p in ps && k in fields
      ensures Valid(false, kw, Close(ps[p]), fields[k]) <==> Valid(true, kw, ps[p], fields[k])
    {
      ClosingIsTheStrictReading(kw, ps[p], fields[k]);
    }
    if PatternsValid(false, kw, Close(patterns), fields) {
      forall p, k | p in ps && k in fields && kw.matches(p, k)
        ensures Valid(true, kw, ps[p], fields[k])
      {
        assert Valid(false, kw, CloseEach(ps)[p], fields[k]);
      }
    }
  }

  lemma {:induction false} PropertiesAgree(kw: Keywords, properties: Json, fields: map<string, Json>)
    requires PositiveEach(properties)
    ensures PropertiesValid(false, kw, Close(properties), fields) <==> PropertiesValid(true, kw, properties, fields)
    decreases properties, 0
  {
    var ps := properties.fields;
    ClosedOneByOne(properties);
    forall k | k in ps && k in fields
      ensures Valid(false, kw, Close(ps[k]), fields[k]) <==> Valid(true, kw, ps[k], fields[k])
    {
      ClosingIsTheStrictReading(kw, ps[k], fields[k]);
    }
  }

  // Closing changes neither the listed names nor the patterns.
  lemma SpokenForAgree(kw: Keywords, m: map<string, Json>)
    requires Positive(JObject(m))
    ensures PropertyNames(Close(JObject(m)).fields) == PropertyNames(m)
    ensures forall k :: PatternCovers(kw, Close(JObject(m)).fields, k) <==> PatternCovers(kw, m, k)
  {
    var c := Close(JObject(m)).fields;
    NestingKeysAgree(m);
    if "properties" in m {
      ClosedOneByOne(m["properties"]);
    }
    if "patternProperties" in m {
      ClosedOneByOne(m["patternProperties"]);
      assert c["patternProperties"].fields.Keys == m["patternProperties"].fields.Keys;
    }
  }

  lemma {:induction false} ExtrasAgree(kw: Keywords, s: Json, fields: map<string, Json>)
    requires Positive(s) && s.JObject?
    ensures ExtrasValid(false, kw, Close(s), fields) <==> ExtrasValid(true, kw, s, fields)
    decreases s, 0
  {
    var m, c := s.fields, Close(s).fields;
    EntriesOfClosed(m);
    ClosedIsTheSameButNesting(m);
    SpokenForAgree(kw, m);
    if "additionalProperties" in m {
      forall k | k in fields
        ensures Valid(false, kw, c["additionalProperties"], fields[k])
                <==> Valid(true, kw, m["additionalProperties"], fields[k])
      {
        ClosingIsTheStrictReading(kw, m["additionalProperties"], fields[k]);
      }
    }
  }

  lemma {:induction false} ListsAgree(kw: Keywords, schemas: Json, v: Json)
    requires schemas.JArray? && forall i | 0 <= i < |schemas.items| :: Positive(schemas.items[i])
    ensures AnyValid(false, kw, Close(schemas), v) <==> AnyValid(true, kw, schemas, v)
    ensures AllValid(false, kw, Close(schemas), v) <==> AllValid(true, kw, schemas, v)
    decreases schemas, 0
  {
    forall i | 0 <= i < |schemas.items|
      ensures Close(schemas).items[i] == Close(schemas.items[i])
      ensures Valid(false, kw, Close(schemas.items[i]), v) <==> Valid(true, kw, schemas.items[i], v)
    {
      ClosingIsTheStrictReading(kw, schemas.items[i], v);
    }
  }

  lemma NestingKeysAgree(m: map<string, Json>)
    ensures var c := Close(JObject(m)).fields;
            forall k | k in NESTING && k != "additionalProperties" :: (k in c <==> k in m)
                && (k in m ==> c[k] == Close(m[k]))
  {
    EntriesOfClosed(m);
  }

  lemma FlatAgrees(kw: Keywords, m: map<string, Json>, v: Json)
    requires Positive(JObject(m))
    ensures FlatOk(kw, Close(JObject(m)).fields, v) <==> FlatOk(kw, m, v)
  {
    var c := Close(JObject(m)).fields;
    ClosedIsTheSameButNesting(m);
    TypesAgree(m, c, v);
    RequiredAgrees(m, c, v);
    OthersAgree(kw, m, c, v);
  }

  lemma {:induction false} FieldsAgree(kw: Keywords, s: Json, fields: map<string, Json>)
    requires Positive(s) && s.JObject?
    ensures FieldsOk(false, kw, Close(s), fields) <==> FieldsOk(true, kw, s, fields)
    decreases s, 1
  {
    NestingKeysAgree(s.fields);
    ExtrasAgree(kw, s, fields);
    if "properties" in s.fields {
      PropertiesAgree(kw, s.fields["properties"], fields);
    }
    if "patternProperties" in s.fields {
      PatternsAgree(kw, s.fields["patternProperties"], fields);
    }
  }

  lemma {:induction false} ItemsAgree(kw: Keywords, s: Json, items: seq<Json>)
    requires Positive(s) && s.JObject?
    ensures ItemsOk(false, kw, Close(s), items) <==> ItemsOk(true, kw, s, items)
    decreases s, 1
  {
    NestingKeysAgree(s.fields);
    if "items" in s.fields {
      forall i | 0 <= i < |items|
        ensures Valid(false, kw, Close(s.fields["items"]), items[i]) <==> Valid(true, kw, s.fields["items"], items[i])
      {
        ClosingIsTheStrictReading(kw, s.fields["items"], items[i]);
      }
    }
  }

  lemma {:induction false} CombinedAgree(kw: Keywords, s: Json, v: Json)
    requires Positive(s) && s.JObject?
    ensures CombinedOk(false, kw, Close(s), v) <==> CombinedOk(true, kw, s, v)
    decreases s, 1
  {
    NestingKeysAgree(s.fields);
    if "anyOf" in s.fields {
      ListsAgree(kw, s.fields["anyOf"], v);
    }
    if "allOf" in s.fields {
      ListsAgree(kw, s.fields["allOf"], v);
    }
  }

  // Exactly: a value is valid under the closed schema when it is valid under the
  // original read strictly, with no field an object schema did not declare.
  lemma {:induction false} ClosingIsTheStrictReading(kw: Keywords, s: Json, v: Json)
    requires Positive(s)
    ensures Valid(false, kw, Close(s), v) <==> Valid(true, kw, s, v)
    decreases s, 2
  {
    if s.JObject? {
      FlatAgrees(kw, s.fields, v);
      CombinedAgree(kw, s, v);
      if v.JObject? {
        FieldsAgree(kw, s, v.fields);
      }
      if v.JArray? {
        ItemsAgree(kw, s, v.items);
      }
    }
  }

  // --- Closing only narrows -----------------------------------------------------------------

  lemma {:induction false} StrictFieldsAreNarrower(kw: Keywords, s: Json, fields: map<string, Json>)
    requires s.JObject? && FieldsOk(true, kw, s, fields)
    ensures FieldsOk(false, kw, s, fields)
    decreases s, 1
  {
    var m := s.fields;
    if "properties" in m && m["properties"].JObject? {
      var ps := m["properties"].fields;
      forall k | k in ps && k in fields
        ensures Valid(false, kw, ps[k], fields[k])
      {
        StrictIsNarrower(kw, ps[k], fields[k]);
      }
    }
    if "patternProperties" in m && m["patternProperties"].JObject? {
      var ps := m["patternProperties"].fields;
      forall p, k | p in ps && k in fields && kw.matches(p, k)
        ensures Valid(false, kw, ps[p], fields[k])
      {
        assert PatternsValid(true, kw, m["patternProperties"], fields);
        StrictIsNarrower(kw, ps[p], fields[k]);
      }
    }
    assert ExtrasValid(true, kw, s, fields);
    forall k | k in fields && k !in PropertyNames(m) && !PatternCovers(kw, m, k) && "additionalProperties" in m
      ensures Valid(false, kw, m["additionalProperties"], fields[k])
    {
      StrictIsNarrower(kw, m["additionalProperties"], fields[k]);
    }
  }

  lemma {:induction false} StrictListsAreNarrower(kw: Keywords, schemas: Json, v: Json)
    ensures AnyValid(true, kw, schemas, v) ==> AnyValid(false, kw, schemas, v)
    ensures AllValid(true, kw, schemas, v) ==> AllValid(false, kw, schemas, v)
    decreases schemas, 0
  {
    if schemas.JArray? {
      forall i | 0 <= i < |schemas.items| && Valid(true, kw, schemas.items[i], v)
        ensures Valid(false, kw, schemas.items[i], v)
      {
        StrictIsNarrower(kw, schemas.items[i], v);
      }
    }
  }

  lemma {:induction false} StrictIsNarrower(kw: Keywords, s: Json, v: Json)
    requires Valid(true, kw, s, v)
    ensures Valid(false, kw, s, v)
    decreases s, 2
  {
    if s.JObject? {
      if v.JObject? {
        StrictFieldsAreNarrower(kw, s, v.fields);
      }
      if "items" in s.fields && v.JArray? {
        forall i | 0 <= i < |v.items|
          ensures Valid(false, kw, s.fields["items"], v.items[i])
        {
          StrictIsNarrower(kw, s.fields["items"], v.items[i]);
        }
      }
      if "anyOf" in s.fields {
        StrictListsAreNarrower(kw, s.fields["anyOf"], v);
      }
      if "allOf" in s.fields {
        StrictListsAreNarrower(kw, s.fields["allOf"], v);
      }
    }
  }

  // Whatever the provider's strict schema lets through, the declared schema allows.
  lemma ClosingOnlyNarrows(kw: Keywords, s: Json, v: Json)
    requires Positive(s)
    requires Valid(false, kw, Close(s), v)
    ensures Valid(false, kw, s, v)
  {
    ClosingIsTheStrictReading(kw, s, v);
    StrictIsNarrower(kw, s, v);
  }

  // --- Outside the positive fragment it need not ---------------------------------------------

  // `not`, as one of the other keywords.
  function WithNot(kw: Keywords): Keywords {
    kw.(holds := (k: string, argument: Json, v: Json) =>
          if k == "not" then !Valid(false, kw, argument, v) else kw.holds(k, argument, v))
  }

  function Not(t: Json): Json {
    JObject(map["not" := t])
  }

  lemma OnlyNot(kw: Keywords, t: Json, v: Json)
    ensures Valid(false, WithNot(kw), Not(t), v) <==> !Valid(false, kw, t, v)
  {
    var all, s := WithNot(kw), Not(t);
    var m := s.fields;
    assert m.Keys == {"not"} && m["not"] == t;
    assert "not" !in NESTING + {"type", "required"};
    assert forall k | k in NESTING + {"type", "required"} :: k !in m;
    assert OthersHold(all, m, v) <==> all.holds("not", m["not"], v);
    assert FlatOk(all, m, v) <==> all.holds("not", t, v);
    assert v.JObject? ==> FieldsOk(false, all, s, v.fields) by {
      assert "additionalProperties" !in m;
    }
    assert CombinedOk(false, all, s, v);
  }

  lemma ClosedUnderNot(t: Json)
    ensures Close(Not(t)) == Not(Close(t))
  {
    var m := Not(t).fields;
    assert CloseEach(m) == map["not" := Close(t)];
    assert "type" !in CloseEach(m);
  }

  lemma NegatedReadings(kw: Keywords, t: Json, v: Json)
    requires Positive(t)
    ensures Valid(false, WithNot(kw), Not(t), v) <==> !Valid(false, kw, t, v)
    ensures Valid(false, WithNot(kw), Close(Not(t)), v) <==> !Valid(true, kw, t, v)
    ensures Valid(true, kw, t, v) ==> Valid(false, kw, t, v)
  {
    hide Valid, WithNot, Not, Positive, Close;
    ClosedUnderNot(t);
    OnlyNot(kw, t, v);
    OnlyNot(kw, Close(t), v);
    ClosingIsTheStrictReading(kw, t, v);
    if Valid(true, kw, t, v) {
      StrictIsNarrower(kw, t, v);
    }
  }

  ghost predicate ImpliedBy(kw: Keywords, s: Json, t: Json) {
    forall v :: Valid(false, kw, t, v) ==> Valid(false, kw, s, v)
  }

  ghost predicate ReadAlike(kw: Keywords, t: Json) {
    forall v :: Valid(true, kw, t, v) <==> Valid(false, kw, t, v)
  }

  // Under `not` closing can only widen; so it narrows as it should exactly where
  // it changes nothing, when no value tells the two readings of `t` apart.
  lemma ClosingUnderNot(kw: Keywords, t: Json)
    requires Positive(t)
    ensures ImpliedBy(WithNot(kw), Close(Not(t)), Not(t))
    ensures ImpliedBy(WithNot(kw), Not(t), Close(Not(t))) <==> ReadAlike(kw, t)
  {
    hide Valid, WithNot, Not, Positive, Close;
    forall v | Valid(false, WithNot(kw), Not(t), v)
      ensures Valid(false, WithNot(kw), Close(Not(t)), v)
    {
      NegatedReadings(kw, t, v);
    }
    if ImpliedBy(WithNot(kw), Not(t), Close(Not(t))) {
      forall v
        ensures Valid(true, kw, t, v) <==> Valid(false, kw, t, v)
      {
        NegatedReadings(kw, t, v);
      }
    }
    if ReadAlike(kw, t) {
      forall v | Valid(false, WithNot(kw), Close(Not(t)), v)
        ensures Valid(false, WithNot(kw), Not(t), v)
      {
        NegatedReadings(kw, t, v);
      }
    }
  }

  // And it does widen: {"not": {"type": "object"}} refuses every object, while its
  // closed form takes those with a field, whatever the other keywords mean.
  lemma ClosingWidensUnderNot(kw: Keywords)
    ensures var s := Not(JObject(map["type" := JString("object")]));
            var v := JObject(map["a" := JNull]);
            Valid(false, WithNot(kw), Close(s), v) && !Valid(false, WithNot(kw), s, v)
  {
    var m := map["type" := JString("object")];
    var v := JObject(map["a" := JNull]);
    assert "a" in v.fields && "a" !in PropertyNames(m) && !PatternCovers(kw, m, "a");
    assert !ExtrasValid(true, kw, JObject(m), v.fields);
    assert Valid(false, kw, JObject(m), v);
    assert Positive(JObject(m));
    ClosingIsTheStrictReading(kw, JObject(m), v);
    ClosedUnderNot(JObject(m));
    OnlyNot(kw, JObject(m), v);
    OnlyNot(kw, Close(JObject(m)), v);
  }
}

/**
 * The post-resolution patch of a schema: a non-page schema whose `type` is
 * `"object"` and that has `properties` gets the reserved `_ref` and
 * `_modifiers` properties, replacing any it already had. The guard and the
 * assignments can throw a TypeError, which ends the emit.
 */
module SchemaAugmenter {
  import opened Wrappers
  import opened Json

  /** `{ "type": "string" }`, the schema given to `_ref`. */
  const RefSchema: Json := JObject([("type", JString("string"))])

  /** `{ "type": "array", "items": { "type": "string" } }`, the schema given to `_modifiers`. */
  const ModifiersSchema: Json :=
    JObject([("type", JString("array")), ("items", JObject([("type", JString("string"))]))])

  /** The guard of the patch: not a page, `schema.properties` truthy, `schema.type == "object"`. */
  predicate Qualifies(isPage: bool, schema: Json) {
    !isPage && Truthy(Get(schema, "properties")) && LooselyEqualsObjectText(Get(schema, "type"))
  }

  /** The patch reaches an object `properties` and adds the two reserved entries to it. */
  predicate PatchesObject(isPage: bool, schema: Json) {
    Qualifies(isPage, schema) && Get(schema, "properties").value.JObject?
  }

  /**
   * The patch throws a TypeError (class bodies are strict code) in three
   * cases: reading `properties` of a null schema; comparing a `type` that
   * cannot be converted to a primitive with `"object"`, once `properties` is
   * truthy; and assigning a property on a truthy primitive `properties`. An
   * array `properties` takes the assignment as a named, non-index property
   * that JSON serialisation never shows.
   */
  predicate Throws(isPage: bool, schema: Json) {
    !isPage &&
    (schema.JNull? ||
     (Truthy(Get(schema, "properties")) && LooseEqualityThrows(Get(schema, "type"))) ||
     (Qualifies(isPage, schema) && !Get(schema, "properties").value.JObject?
                                && !Get(schema, "properties").value.JArray?))
  }

  /** `properties` with the two reserved entries, and every other entry as it was. */
  ghost predicate ReservedAdded(before: seq<(string, Json)>, after: seq<(string, Json)>) {
    && Lookup(after, "_ref") == Some(RefSchema)
    && Lookup(after, "_modifiers") == Some(ModifiersSchema)
    && (forall k :: k != "_ref" && k != "_modifiers" ==> Lookup(after, k) == Lookup(before, k))
  }

  /** `schema.properties['_ref'] = ...; schema.properties['_modifiers'] = ...` on an object `properties`. */
  function PatchProperties(schema: Json): (r: Json)
    requires Get(schema, "properties").Some? && Get(schema, "properties").value.JObject?
    ensures r.JObject? && Keys(r.members) == Keys(schema.members)
    ensures forall k :: k != "properties" ==> Get(r, k) == Get(schema, k)
    ensures Get(r, "properties").Some? && Get(r, "properties").value.JObject?
    ensures ReservedAdded(Get(schema, "properties").value.members, Get(r, "properties").value.members)
  {
    var properties := Get(schema, "properties").value.members;
    var patched := Put(Put(properties, "_ref", RefSchema), "_modifiers", ModifiersSchema);
    PutKeys(schema.members, "properties", JObject(patched));
    JObject(Put(schema.members, "properties", JObject(patched)))
  }

  /** The schema as the emitted asset sees it after the conditional patch of `addSchema`. */
  function Augment(isPage: bool, schema: Json): (r: Result<Json>)
    ensures r.Err? <==> Throws(isPage, schema)
    ensures r.Ok? && !PatchesObject(isPage, schema) ==> r.value == schema
    ensures PatchesObject(isPage, schema) ==>
      r.Ok? && r.value.JObject? && Keys(r.value.members) == Keys(schema.members)
    ensures PatchesObject(isPage, schema) && r.Ok? ==>
      forall k :: k != "properties" ==> Get(r.value, k) == Get(schema, k)
    ensures PatchesObject(isPage, schema) && r.Ok? ==>
      Get(r.value, "properties").Some? && Get(r.value, "properties").value.JObject? &&
      ReservedAdded(Get(schema, "properties").value.members, Get(r.value, "properties").value.members)
  {
    if isPage then Ok(schema)
    else if schema.JNull? then Err("TypeError: Cannot read properties of null (reading 'properties')")
    else if Truthy(Get(schema, "properties")) && LooseEqualityThrows(Get(schema, "type")) then
      LooseEqualityOutcome(Get(schema, "type"));
      Err("TypeError: Cannot convert object to primitive value")
    else if !Qualifies(isPage, schema) then Ok(schema)
    else
      match Get(schema, "properties").value
      case JObject(_) => Ok(PatchProperties(schema))
      case JArray(_) => Ok(schema)
      case _ => Err("TypeError: Cannot create property '_ref' on a primitive value")
  }

  /**
   * A `type` whose own `toString` member is not callable makes the guard
   * throw, also inside an array: `{"properties": {}, "type": {"toString": 0}}`
   * and `{"properties": {}, "type": ["a", {"toString": 0}]}` both throw.
   */
  lemma UnconvertibleTypeThrows(properties: seq<(string, Json)>, type_: Json)
    requires ToPrimitiveThrows(type_)
    ensures Augment(false, JObject([("properties", JObject(properties)), ("type", type_)])).Err?
    ensures Augment(false, JObject([("properties", JObject(properties)), ("type", JArray([JString("a"), type_]))])).Err?
  {
    assert |"properties"| != |"type"|;
    LookupPair("properties", JObject(properties), "type", type_);
    var nested := JArray([JString("a"), type_]);
    assert nested.items[1] == type_;
    LookupPair("properties", JObject(properties), "type", nested);
  }

  /** Page schemas come through unchanged, whatever their shape. */
  lemma PageSchemasUntouched(schema: Json)
    ensures Augment(true, schema) == Ok(schema)
  {
  }

  /** Patching a patched schema again changes nothing. */
  lemma AugmentIdempotent(isPage: bool, schema: Json)
    requires Augment(isPage, schema).Ok?
    ensures Augment(isPage, Augment(isPage, schema).value) == Augment(isPage, schema)
  {
    var once := Augment(isPage, schema).value;
    if PatchesObject(isPage, schema) {
      assert Get(once, "type") == Get(schema, "type");
      var properties := Get(once, "properties").value.members;
      assert PatchesObject(isPage, once);
      PutUnchanged(properties, "_ref", RefSchema);
      PutUnchanged(properties, "_modifiers", ModifiersSchema);
      PutUnchanged(once.members, "properties", JObject(properties));
    }
  }
}

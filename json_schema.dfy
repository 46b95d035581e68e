/** Schema descriptors and the builders that construct them. A descriptor
    is a record of the keys the builders and the engines use; an absent
    key is `Undef` (for value-typed keys) or `None`. */
module JsonSchema {
  import opened JsValues

  /** The `required` key: a draft-03 style boolean flag on a property's own
      schema, or a draft-04 style list of property names on an object
      schema (kept as a set: its order is never used). */
  datatype Required = Absent | Flag(b: bool) | Names(names: set<string>)

  /** A schema descriptor. `kind` is the `type` key. `properties` is only
      meaningful when `hasProperties` holds; an object schema without the
      key has an empty map there. */
  datatype Schema = Schema(
    kind: string,
    defaultValue: Value,
    required: Required,
    hasProperties: bool,
    properties: map<string, Schema>,
    items: Option<Schema>,
    enumValues: Option<seq<string>>,
    additionalProperties: Option<bool>,
    id: Option<string>,
    title: Option<string>,
    maxLength: Value)

  /** `if (schema.required)`: a flag counts when true, and a list of names
      always counts, because every JavaScript array is truthy. */
  predicate RequiredIsTruthy(r: Required) {
    r == Flag(true) || r.Names?
  }

  /** The names an engine walks over: lodash `forOwn` of an absent
      `properties` key visits nothing. */
  function PropertyNames(schema: Schema): set<string> {
    if schema.hasProperties then schema.properties.Keys else {}
  }

  /** `{ type: kind }`. */
  function Bare(kind: string): Schema {
    Schema(kind, Undef, Absent, false, map[], None, None, None, None, None, Undef)
  }

  /** `{ type: 'object', properties }`, written out as a literal. */
  function ObjectOf(properties: map<string, Schema>): Schema {
    Bare("object").(hasProperties := true, properties := properties)
  }

  /** Two descriptors that agree on every key the engines read at this node:
      `type`, `default`, `properties` and `items`. The node's own
      `required`, `id`, `title`, `enum`, `maxLength` and
      `additionalProperties` are never read by either engine. */
  predicate SameForEngines(s: Schema, t: Schema) {
    && s.kind == t.kind
    && s.defaultValue == t.defaultValue
    && s.hasProperties == t.hasProperties
    && s.properties == t.properties
    && s.items == t.items
  }

  const StringSchema: Schema := Bare("string")
  const DateSchema: Schema := Bare("date")
  const NumberSchema: Schema := Bare("number")
  const BooleanSchema: Schema := Bare("boolean")
  const EmptyStringSchema: Schema := SchemaDefault(StringSchema, Str(""))
  const TrueSchema: Schema := SchemaDefault(BooleanSchema, Bool(true))
  const FalseSchema: Schema := SchemaDefault(BooleanSchema, Bool(false))

  /** `schemaDefault` of src/json-schema.js: sets `default` and nothing else. */
  function SchemaDefault(schema: Schema, defaultValue: Value): (r: Schema)
    ensures r.defaultValue == defaultValue
    ensures r.(defaultValue := schema.defaultValue) == schema
  {
    schema.(defaultValue := defaultValue)
  }

  /** `schemaDefault` of dist/json-schema-toolbox.js: sets `default` and
      also marks the schema required. */
  function SchemaDefaultRequired(schema: Schema, defaultValue: Value): (r: Schema)
    ensures r.defaultValue == defaultValue && r.required == Flag(true)
    ensures r.(defaultValue := schema.defaultValue, required := schema.required) == schema
  {
    schema.(defaultValue := defaultValue, required := Flag(true))
  }

  /** `schemaRequired`: sets `required` and nothing else. */
  function SchemaRequired(schema: Schema, required: Required): (r: Schema)
    ensures r.required == required
    ensures r.(required := schema.required) == schema
  {
    schema.(required := required)
  }

  /** `limitedStringSchema(limit)`: a string schema with `maxLength`. */
  function LimitedStringSchema(limit: Value): (r: Schema)
    ensures r.kind == "string" && r.maxLength == limit
    ensures r.(maxLength := Undef) == StringSchema
  {
    Bare("string").(maxLength := limit)
  }

  /** `enumSchema(enumValues, defaultValue)`: a string schema with `enum`
      and `default` (an omitted default is `undefined`). */
  function EnumSchema(enumValues: seq<string>, defaultValue: Value): (r: Schema)
    ensures r.kind == "string" && r.enumValues == Some(enumValues) && r.defaultValue == defaultValue
    ensures r.(enumValues := None, defaultValue := Undef) == StringSchema
  {
    Bare("string").(enumValues := Some(enumValues), defaultValue := defaultValue)
  }

  /** `arraySchema(items, defaultValue = [])`: JavaScript substitutes the
      parameter default only for `undefined`, so an explicit `null` stays. */
  function ArraySchema(items: Schema, defaultValue: Value): (r: Schema)
    ensures r.kind == "array" && r.items == Some(items)
    ensures defaultValue == Undef ==> r.defaultValue == Arr([])
    ensures defaultValue != Undef ==> r.defaultValue == defaultValue
    ensures r.(items := None, defaultValue := Undef) == Bare("array")
  {
    Bare("array").(defaultValue := if defaultValue == Undef then Arr([]) else defaultValue, items := Some(items))
  }

  /** `objectSchema(properties = [])`: an omitted argument gives an empty
      `properties`. */
  function ObjectSchema(properties: Option<map<string, Schema>>): (r: Schema)
    ensures r.kind == "object" && r.hasProperties
    ensures PropertyNames(r) == (if properties.Some? then properties.value.Keys else {})
    ensures properties.Some? ==> r.properties == properties.value
    ensures r.(hasProperties := false, properties := map[]) == Bare("object")
  {
    Bare("object").(hasProperties := true, properties := if properties.Some? then properties.value else map[])
  }

  /** `requiredSchema`: lists every property name as required and forbids
      additional properties; `keys` of an absent `properties` is empty. */
  function RequiredSchema(schema: Schema): (r: Schema)
    ensures r.required == Names(PropertyNames(schema))
    ensures r.additionalProperties == Some(false)
    ensures r.(required := schema.required, additionalProperties := schema.additionalProperties) == schema
  {
    schema.(required := Names(PropertyNames(schema)), additionalProperties := Some(false))
  }

  /** `exactSchema`: forbids additional properties and nothing else. */
  function ExactSchema(schema: Schema): (r: Schema)
    ensures r.additionalProperties == Some(false)
    ensures r.(additionalProperties := schema.additionalProperties) == schema
  {
    schema.(additionalProperties := Some(false))
  }

  /** `omitId`: drops `id`, `title` and `default`. */
  function OmitId(schema: Schema): (r: Schema)
    ensures r.id == None && r.title == None && r.defaultValue == Undef
    ensures r.(id := schema.id, title := schema.title, defaultValue := schema.defaultValue) == schema
  {
    schema.(id := None, title := None, defaultValue := Undef)
  }

  /** `withId`: sets `id` and nothing else. */
  function WithId(schema: Schema, id: string): (r: Schema)
    ensures r.id == Some(id)
    ensures r.(id := schema.id) == schema
  {
    schema.(id := Some(id))
  }

  /** The decorations that only describe a schema leave every key the
      engines read untouched. */
  lemma DecorationsKeepEngineKeys(schema: Schema, id: string, required: Required)
    ensures SameForEngines(WithId(schema, id), schema)
    ensures SameForEngines(ExactSchema(schema), schema)
    ensures SameForEngines(RequiredSchema(schema), schema)
    ensures SameForEngines(SchemaRequired(schema, required), schema)
  {
  }

  /** `requiredSchema` makes the schema truthy-required when it is used as
      a property of another object, whatever its property list. */
  lemma RequiredSchemaIsRequiredProperty(schema: Schema)
    ensures RequiredIsTruthy(RequiredSchema(schema).required)
    ensures RequiredIsTruthy(SchemaDefaultRequired(schema, Undef).required)
  {
  }
}

/** The defaulting engine (`autoDefaults`, behind `fillDefaults`): walks a
    schema and a value together and fills schema defaults into absent
    leaves. Object schemas always give a fresh object holding the included
    schema properties and then every other present field of the data;
    arrays are filled element by element.

    Two versions of the engine exist. The one in
    src/json-schema-fill-defaults.js keeps present leaves as they are; the
    one in dist/json-schema-toolbox.js also converts a present leaf to its
    schema's type (`String` under `'string'`, `Number` under `'number'`).
    `Variant` selects between them; the object and array rules are shared.

    `Fill` and its companions specify the result; `ProcessNode`,
    `ProcessObject` and `ProcessArray` build it as the source does and are
    proved to return exactly that. */
module FillDefaults {
  import opened JsValues
  import opened JsonSchema

  datatype Variant = Plain | Coercing(builtins: Builtins)

  /** Whether a schema property is set on the result: its schema is
      truthy-required, or the data field is neither `undefined` nor
      `null`. */
  predicate Included(property: Schema, value: Value) {
    RequiredIsTruthy(property.required) || IsPresent(value)
  }

  /** The leaf branch of `processNode` (any type but object and array): a
      present value is kept, or in the coercing variant converted to the
      leaf's type; an absent one gives the present default, else
      `undefined`. */
  function FillLeaf(variant: Variant, schema: Schema, data: Value): (r: Value)
    ensures IsPresent(r) <==> IsPresent(data) || IsPresent(schema.defaultValue)
    ensures !IsPresent(data) ==> r == (if IsPresent(schema.defaultValue) then schema.defaultValue else Undef)
    ensures IsPresent(data) && (variant.Plain? || schema.kind !in {"string", "number"}) ==> r == data
    ensures IsPresent(data) && variant.Coercing? && schema.kind == "string" ==>
              r == (if data.Str? then data else Str(variant.builtins.text(data)))
    ensures IsPresent(data) && variant.Coercing? && schema.kind == "number" ==>
              r == (if data.Num? then data else Num(variant.builtins.number(data)))
  {
    if IsPresent(data) then
      if variant.Coercing? && schema.kind == "string" && !data.Str? then Str(variant.builtins.text(data))
      else if variant.Coercing? && schema.kind == "number" && !data.Num? then Num(variant.builtins.number(data))
      else data
    else if IsPresent(schema.defaultValue) then schema.defaultValue
    else Undef
  }

  /** The inputs on which the source runs without throwing and which the
      model covers. An object schema needs `properties` (`Object.keys` of
      `undefined` throws) and data that is `undefined`, `null`, a boolean,
      a number or a plain object. Under an array schema, `null` throws on
      `.length`; the loop visits the elements of an array or the
      characters of a string, and needs `items` unless there are none;
      booleans, numbers and objects without a `length` key run no
      iteration. An object with a `length` key is not modelled. */
  predicate Fillable(schema: Schema, data: Value)
    decreases schema
  {
    if schema.kind == "object" then
      && schema.hasProperties
      && (data.Undef? || data.Null? || data.Bool? || data.Num? || data.Obj?)
      && forall k :: k in schema.properties && Included(schema.properties[k], Lookup(Fields(data), k)) ==>
           Fillable(schema.properties[k], Lookup(Fields(data), k))
    else if schema.kind == "array" then
      && !data.Null?
      && !(data.Obj? && "length" in data.fields)
      && if schema.items.Some? then
           forall i :: 0 <= i < |Elements(data)| ==> Fillable(schema.items.value, Elements(data)[i])
         else Elements(data) == []
    else true
  }

  /** `processNode`: objects and arrays by their rules, anything else as a
      leaf. */
  function Fill(variant: Variant, schema: Schema, data: Value): (r: Value)
    requires Fillable(schema, data)
    ensures schema.kind == "object" ==> r.Obj?
    ensures schema.kind == "array" && data != Undef ==> r.Arr?
    ensures IsPresent(data) ==> IsPresent(r)
    decreases schema, 2
  {
    if schema.kind == "object" then FillObject(variant, schema, data)
    else if schema.kind == "array" then FillArray(variant, schema, data)
    else FillLeaf(variant, schema, data)
  }

  /** `processObject`: the included schema properties, then every present
      data field that the schema walk left without a present value. */
  function FillObject(variant: Variant, schema: Schema, data: Value): Value
    requires schema.kind == "object" && Fillable(schema, data)
    decreases schema, 1
  {
    var filled := FilledProperties(variant, schema, data);
    Obj(filled + CopiedFields(filled, Fields(data)))
  }

  /** The first pass: every included schema property, filled against its
      data field (`undefined` when the data is absent). */
  function FilledProperties(variant: Variant, schema: Schema, data: Value): map<string, Value>
    requires schema.kind == "object" && Fillable(schema, data)
    decreases schema, 0
  {
    var node := Fields(data);
    map k | k in schema.properties && Included(schema.properties[k], Lookup(node, k))
      :: Fill(variant, schema.properties[k], Lookup(node, k))
  }

  /** The second pass: the present data fields whose name has no present
      value after the first pass. */
  function CopiedFields(filled: map<string, Value>, node: map<string, Value>): map<string, Value> {
    map k | k in node && IsPresent(node[k]) && !IsPresent(Lookup(filled, k)) :: node[k]
  }

  /** `processArray`: only `undefined` selects the default, when truthy;
      otherwise element `i` of the result fills element `i` of the data
      (character `i` of a string). Data without elements (`length`
      undefined) gives an empty array. */
  function FillArray(variant: Variant, schema: Schema, data: Value): Value
    requires schema.kind == "array" && Fillable(schema, data)
    decreases schema, 1
  {
    if data == Undef then
      if Truthy(schema.defaultValue) then schema.defaultValue else Undef
    else if Elements(data) != [] then
      var elems := Elements(data);
      Arr(seq(|elems|, i requires 0 <= i < |elems| => Fill(variant, schema.items.value, elems[i])))
    else Arr([])
  }

  method ProcessNode(variant: Variant, schema: Schema, data: Value) returns (r: Value)
    requires Fillable(schema, data)
    ensures r == Fill(variant, schema, data)
    decreases schema, 1
  {
    if schema.kind == "object" {
      r := ProcessObject(variant, schema, data);
    } else if schema.kind == "array" {
      r := ProcessArray(variant, schema, data);
    } else {
      r := FillLeaf(variant, schema, data);
    }
  }

  method ProcessObject(variant: Variant, schema: Schema, data: Value) returns (r: Value)
    requires schema.kind == "object" && Fillable(schema, data)
    ensures r == FillObject(variant, schema, data)
    decreases schema, 0
  {
    var node := Fields(data);
    // first pass: the included schema properties
    ghost var filled := FilledProperties(variant, schema, data);
    var result: map<string, Value> := map[];
    var names := schema.properties.Keys;
    while names != {}
      invariant names <= schema.properties.Keys
      invariant forall k :: k in result <==> k in filled && k !in names
      invariant forall k :: k in result ==> result[k] == filled[k]
      decreases names
    {
      var name :| name in names;
      var value := Lookup(node, name);
      if Included(schema.properties[name], value) {
        var v := ProcessNode(variant, schema.properties[name], value);
        result := result[name := v];
      }
      names := names - {name};
    }
    assert result == filled;
    result := CopyFields(result, node);
    r := Obj(result);
  }

  /** The second pass of `processObject`: copies every present field of
      `node` whose name has no present value in `filled`. */
  method CopyFields(filled: map<string, Value>, node: map<string, Value>) returns (result: map<string, Value>)
    ensures result == filled + CopiedFields(filled, node)
  {
    ghost var copied := CopiedFields(filled, node);
    result := filled;
    var rest := node.Keys;
    while rest != {}
      invariant rest <= node.Keys
      invariant forall k :: k in result <==> k in filled || (k in copied && k !in rest)
      invariant forall k :: k in result ==> result[k] == if k in copied && k !in rest then copied[k] else filled[k]
      decreases rest
    {
      var name :| name in rest;
      if !IsPresent(Lookup(result, name)) && IsPresent(node[name]) {
        result := result[name := node[name]];
      }
      rest := rest - {name};
    }
    assert result == filled + copied;
  }

  method ProcessArray(variant: Variant, schema: Schema, data: Value) returns (r: Value)
    requires schema.kind == "array" && Fillable(schema, data)
    ensures r == FillArray(variant, schema, data)
    decreases schema, 0
  {
    if data == Undef {
      if Truthy(schema.defaultValue) {
        return schema.defaultValue;
      }
      return Undef;
    }
    var result: seq<Value> := [];
    var elems := Elements(data);
    for i := 0 to |elems|
      invariant |result| == i
      invariant forall j :: 0 <= j < i ==> result[j] == Fill(variant, schema.items.value, elems[j])
    {
      var v := ProcessNode(variant, schema.items.value, elems[i]);
      result := result + [v];
    }
    r := Arr(result);
  }
}

/** What the defaulting engine promises, stated on its specification. */
module FillDefaultsProperties {
  import opened JsValues
  import opened JsonSchema
  import opened FillDefaults

  /** The engine never produces `null`; an object schema always gives an
      object, even for `undefined` or `null` data. */
  lemma NeverNull(variant: Variant, schema: Schema, data: Value)
    requires Fillable(schema, data)
    ensures Fill(variant, schema, data) != Null
    ensures schema.kind == "object" ==> Fill(variant, schema, data).Obj?
  {
  }

  /** The second pass never touches a name the first pass set: a name set
      to a value that is not present had no present data field, since
      present data fills to a present value. */
  lemma CopiedAvoidsFilled(variant: Variant, schema: Schema, data: Value)
    requires schema.kind == "object" && Fillable(schema, data)
    ensures FilledProperties(variant, schema, data).Keys !! CopiedFields(FilledProperties(variant, schema, data), Fields(data)).Keys
  {
  }

  /** A schema property is set exactly when its schema is truthy-required
      or the data field is present, and then holds the property's fill of
      the field: the copying pass never overwrites it. */
  lemma ObjectIncludesProperty(variant: Variant, schema: Schema, data: Value, name: string)
    requires schema.kind == "object" && Fillable(schema, data)
    requires name in schema.properties
    ensures Fill(variant, schema, data).Obj?
    ensures var node, r, p := Fields(data), Fill(variant, schema, data).fields, schema.properties[name];
      && (name in r <==> RequiredIsTruthy(p.required) || IsPresent(Lookup(node, name)))
      && (name in r ==> r[name] == Fill(variant, p, Lookup(node, name)))
  {
    var filled := FilledProperties(variant, schema, data);
    CopiedAvoidsFilled(variant, schema, data);
    assert Fill(variant, schema, data).fields == filled + CopiedFields(filled, Fields(data));
  }

  /** Every present data field is in the result; one the schema does not
      name keeps its value, and an absent one the schema does not name is
      left out. */
  lemma ObjectKeepsPresentFields(variant: Variant, schema: Schema, data: Value, name: string)
    requires schema.kind == "object" && Fillable(schema, data)
    ensures Fill(variant, schema, data).Obj?
    ensures var node, r := Fields(data), Fill(variant, schema, data).fields;
      && (name in node && IsPresent(node[name]) ==> name in r)
      && (name in node && IsPresent(node[name]) && name !in schema.properties ==> r[name] == node[name])
      && (name !in schema.properties ==> (name in r <==> name in node && IsPresent(node[name])))
  {
    var node := Fields(data);
    var filled := FilledProperties(variant, schema, data);
    assert Fill(variant, schema, data).fields == filled + CopiedFields(filled, node);
    if name in node && IsPresent(node[name]) && name !in filled {
      assert name in CopiedFields(filled, node);
    }
  }

  /** Only `undefined` selects the default (when truthy, else the result is
      `undefined`); any other value gives an array as long as what the loop
      visits (the elements of an array, the characters of a string, nothing
      otherwise), whose element `i` fills element `i`. */
  lemma ArrayRule(variant: Variant, schema: Schema, data: Value)
    requires schema.kind == "array" && Fillable(schema, data)
    ensures var r := Fill(variant, schema, data);
      && (data == Undef && Truthy(schema.defaultValue) ==> r == schema.defaultValue)
      && (data == Undef && !Truthy(schema.defaultValue) ==> r == Undef)
      && (data != Undef ==>
            r.Arr? && |r.elems| == |Elements(data)| &&
            forall i :: 0 <= i < |Elements(data)| ==> r.elems[i] == Fill(variant, schema.items.value, Elements(data)[i]))
  {
  }

  /** Keys that only describe a schema do not change what it does. */
  lemma FillReadsOnlyEngineKeys(variant: Variant, s: Schema, t: Schema, data: Value)
    requires SameForEngines(s, t)
    ensures Fillable(s, data) <==> Fillable(t, data)
    ensures Fillable(s, data) ==> Fill(variant, s, data) == Fill(variant, t, data)
  {
    if Fillable(s, data) && s.kind == "object" {
      assert FilledProperties(variant, s, data) == FilledProperties(variant, t, data);
    }
  }

  /** The name list that `requiredSchema` puts on an object has no effect
      on that object's own fill: the engine reads the per-property flag of
      draft 03, not the name list of draft 04. */
  lemma RequiredListIsIgnored(variant: Variant, schema: Schema, data: Value)
    requires Fillable(schema, data)
    ensures Fillable(RequiredSchema(schema), data)
    ensures Fill(variant, RequiredSchema(schema), data) == Fill(variant, schema, data)
  {
    DecorationsKeepEngineKeys(schema, "", Absent);
    FillReadsOnlyEngineKeys(variant, RequiredSchema(schema), schema, data);
  }

  /** A property whose schema carries a name list (even an empty one) is
      always set: the engine only tests `required` for truthiness. */
  lemma NameListPropertyIsAlwaysSet(variant: Variant, schema: Schema, data: Value, name: string)
    requires schema.kind == "object" && Fillable(schema, data)
    requires name in schema.properties && schema.properties[name].required.Names?
    ensures name in Fill(variant, schema, data).fields
  {
    ObjectIncludesProperty(variant, schema, data, name);
  }

  /** Used as a property, a schema built by `requiredSchema` is always set. */
  lemma RequiredSchemaPropertyIsAlwaysSet(variant: Variant, schema: Schema, data: Value, name: string, s: Schema)
    requires schema.kind == "object" && Fillable(schema, data)
    requires name in schema.properties && schema.properties[name] == RequiredSchema(s)
    ensures name in Fill(variant, schema, data).fields
  {
    RequiredSchemaIsRequiredProperty(s);
    ObjectIncludesProperty(variant, schema, data, name);
  }

  /** A property built with the `schemaDefault` of dist/json-schema-toolbox.js
      (which also sets `required: true`) over a leaf schema is always set,
      to its default when the data lacks it. */
  lemma RequiredDefaultIsFilled(variant: Variant, schema: Schema, data: Value, name: string, leaf: Schema, value: Value)
    requires schema.kind == "object" && Fillable(schema, data)
    requires leaf.kind != "object" && leaf.kind != "array" && IsPresent(value)
    requires name in schema.properties && schema.properties[name] == SchemaDefaultRequired(leaf, value)
    requires !IsPresent(Lookup(Fields(data), name))
    ensures name in Fill(variant, schema, data).fields
    ensures Fill(variant, schema, data).fields[name] == value
  {
    ObjectIncludesProperty(variant, schema, data, name);
  }

  /** With the `schemaDefault` of src/json-schema.js the property stays
      unset when the data lacks it, unless the leaf was already required. */
  lemma PlainDefaultIsNotFilled(variant: Variant, schema: Schema, data: Value, name: string, leaf: Schema, value: Value)
    requires schema.kind == "object" && Fillable(schema, data)
    requires !RequiredIsTruthy(leaf.required)
    requires name in schema.properties && schema.properties[name] == SchemaDefault(leaf, value)
    requires !IsPresent(Lookup(Fields(data), name))
    ensures name !in Fill(variant, schema, data).fields
  {
    ObjectIncludesProperty(variant, schema, data, name);
  }

  /** `fillDefaultsArray(items, undefined)` is `[]`: `arraySchema` defaults
      `default` to `[]`. An explicit `null` default is kept by
      `arraySchema` and is not truthy, so the result is `undefined`. */
  lemma ArrayOfUndefined(variant: Variant, items: Schema)
    ensures Fillable(ArraySchema(items, Undef), Undef)
    ensures Fill(variant, ArraySchema(items, Undef), Undef) == Arr([])
    ensures Fill(variant, ArraySchema(items, Null), Undef) == Undef
  {
  }

  /** Schemas whose defaults are already what the engine would make of
      them: array defaults are `[]` or not truthy, and in the coercing
      variant a present default of a string or number leaf has that
      type. */
  predicate StableDefaults(variant: Variant, schema: Schema)
    decreases schema
  {
    if schema.kind == "object" then
      forall k :: k in schema.properties ==> StableDefaults(variant, schema.properties[k])
    else if schema.kind == "array" then
      && (!Truthy(schema.defaultValue) || schema.defaultValue == Arr([]))
      && (schema.items.Some? ==> StableDefaults(variant, schema.items.value))
    else
      variant.Coercing? && IsPresent(schema.defaultValue) ==>
        && (schema.kind == "string" ==> schema.defaultValue.Str?)
        && (schema.kind == "number" ==> schema.defaultValue.Num?)
  }

  /** Without stable defaults filling is not idempotent: in the coercing
      variant a number leaf whose default is the string `'10'` fills
      `undefined` with `'10'`, which a second pass converts to a number;
      and an array whose default is `true` fills `undefined` with `true`,
      which a second pass turns into `[]`. */
  lemma UnstableDefaultsCounterexample(b: Builtins)
    ensures !StableDefaults(Coercing(b), SchemaDefault(NumberSchema, Str("10")))
    ensures Fill(Coercing(b), SchemaDefault(NumberSchema, Str("10")), Undef) == Str("10")
    ensures Fill(Coercing(b), SchemaDefault(NumberSchema, Str("10")), Str("10")) == Num(b.number(Str("10")))
    ensures !StableDefaults(Plain, ArraySchema(StringSchema, Bool(true)))
    ensures Fill(Plain, ArraySchema(StringSchema, Bool(true)), Undef) == Bool(true)
    ensures Fill(Plain, ArraySchema(StringSchema, Bool(true)), Bool(true)) == Arr([])
  {
  }

  /** Filling twice is filling once, for schemas with stable defaults. */
  lemma {:induction false} FillIsIdempotent(variant: Variant, schema: Schema, data: Value)
    requires Fillable(schema, data) && StableDefaults(variant, schema)
    ensures Fillable(schema, Fill(variant, schema, data))
    ensures Fill(variant, schema, Fill(variant, schema, data)) == Fill(variant, schema, data)
    decreases schema, 1
  {
    if schema.kind == "object" {
      ObjectFillIsIdempotent(variant, schema, data);
    } else if schema.kind == "array" {
      ArrayFillIsIdempotent(variant, schema, data);
    }
  }

  lemma {:induction false} ObjectFillIsIdempotent(variant: Variant, schema: Schema, data: Value)
    requires schema.kind == "object" && Fillable(schema, data) && StableDefaults(variant, schema)
    ensures Fillable(schema, Fill(variant, schema, data))
    ensures Fill(variant, schema, Fill(variant, schema, data)) == Fill(variant, schema, data)
    decreases schema, 0
  {
    var r := Fill(variant, schema, data);
    var filled := FilledProperties(variant, schema, data);
    ObjectReadsBack(variant, schema, data);
    forall k | k in filled
      ensures Fillable(schema.properties[k], filled[k])
      ensures Fill(variant, schema.properties[k], filled[k]) == filled[k]
    {
      FillIsIdempotent(variant, schema.properties[k], Lookup(Fields(data), k));
    }
    assert r.Obj?;
    forall k | k in schema.properties
      ensures Included(schema.properties[k], Lookup(r.fields, k)) <==> k in filled
    {
    }
    assert Fillable(schema, r);
    var again := FilledProperties(variant, schema, r);
    assert again.Keys == filled.Keys;
    assert again == filled;
    assert Fill(variant, schema, r) == FillObject(variant, schema, r);
  }

  /** The non-inductive half of idempotence on objects: the result reads
      back the first pass at every schema property, each of its entries is
      still included, and its other present fields are copied again. */
  lemma ObjectReadsBack(variant: Variant, schema: Schema, data: Value)
    requires schema.kind == "object" && Fillable(schema, data)
    ensures var r, filled := Fill(variant, schema, data), FilledProperties(variant, schema, data);
      && (forall k :: k in schema.properties ==> Lookup(r.fields, k) == Lookup(filled, k))
      && (forall k :: k in filled ==> Included(schema.properties[k], filled[k]))
      && r.fields == filled + CopiedFields(filled, r.fields)
  {
    var r := Fill(variant, schema, data);
    var filled := FilledProperties(variant, schema, data);
    var copied := CopiedFields(filled, Fields(data));
    CopiedAvoidsFilled(variant, schema, data);
    assert r == FillObject(variant, schema, data);
    assert CopiedFields(filled, r.fields) == copied;
  }

  lemma {:induction false} ArrayFillIsIdempotent(variant: Variant, schema: Schema, data: Value)
    requires schema.kind == "array" && Fillable(schema, data) && StableDefaults(variant, schema)
    ensures Fillable(schema, Fill(variant, schema, data))
    ensures Fill(variant, schema, Fill(variant, schema, data)) == Fill(variant, schema, data)
    decreases schema, 0
  {
    var r := Fill(variant, schema, data);
    assert r == FillArray(variant, schema, data);
    if Elements(data) != [] {
      var items, elems := schema.items.value, Elements(data);
      forall i | 0 <= i < |elems|
        ensures Fillable(items, r.elems[i]) && Fill(variant, items, r.elems[i]) == r.elems[i]
      {
        FillIsIdempotent(variant, items, elems[i]);
      }
      assert Fillable(schema, r);
      assert Fill(variant, schema, r).elems == r.elems;
    }
  }

  /** Data already complete for its schema: objects hold only present
      fields and every truthy-required property, arrays fit their `items`,
      and leaves are present (and of their type in the coercing
      variant). */
  predicate Populated(variant: Variant, schema: Schema, data: Value)
    decreases schema
  {
    if schema.kind == "object" then
      && schema.hasProperties && data.Obj?
      && (forall k :: k in data.fields ==> IsPresent(data.fields[k]))
      && (forall k :: k in schema.properties && k !in data.fields ==> !RequiredIsTruthy(schema.properties[k].required))
      && (forall k :: k in schema.properties && k in data.fields ==> Populated(variant, schema.properties[k], data.fields[k]))
    else if schema.kind == "array" then
      && data.Arr?
      && (schema.items.None? ==> data.elems == [])
      && (schema.items.Some? ==> forall i :: 0 <= i < |data.elems| ==> Populated(variant, schema.items.value, data.elems[i]))
    else
      && IsPresent(data)
      && (variant.Coercing? && schema.kind == "string" ==> data.Str?)
      && (variant.Coercing? && schema.kind == "number" ==> data.Num?)
  }

  /** Complete data comes back unchanged: with no defaults to add and no
      required property missing, filling is the identity. */
  lemma {:induction false} PopulatedIsFixedPoint(variant: Variant, schema: Schema, data: Value)
    requires Populated(variant, schema, data)
    ensures Fillable(schema, data)
    ensures Fill(variant, schema, data) == data
    decreases schema
  {
    if schema.kind == "object" {
      var node := data.fields;
      forall k | k in schema.properties && k in node
        ensures Fillable(schema.properties[k], node[k]) && Fill(variant, schema.properties[k], node[k]) == node[k]
      {
        PopulatedIsFixedPoint(variant, schema.properties[k], node[k]);
      }
      assert Fillable(schema, data);
      var filled := FilledProperties(variant, schema, data);
      assert forall k :: k in filled ==> k in node && filled[k] == node[k];
      assert filled + CopiedFields(filled, node) == node;
    } else if schema.kind == "array" {
      if schema.items.Some? {
        var items := schema.items.value;
        forall i | 0 <= i < |data.elems|
          ensures Fillable(items, data.elems[i]) && Fill(variant, items, data.elems[i]) == data.elems[i]
        {
          PopulatedIsFixedPoint(variant, items, data.elems[i]);
        }
      }
      assert Fillable(schema, data);
      assert Fill(variant, schema, data).elems == data.elems;
    }
  }

  /** The object schema of src/fill-defaults.spec.js. */
  function IdNameFolderSchema(): Schema {
    ObjectOf(map["id" := NumberSchema, "name" := StringSchema, "folder" := StringSchema])
  }

  /** A fully populated object is returned as it is, by both variants. */
  lemma PopulatedObjectExample(variant: Variant)
    ensures Fillable(IdNameFolderSchema(), Obj(map["id" := Num(Finite(1.0)), "name" := Str("name"), "folder" := Str("/name")]))
    ensures Fill(variant, IdNameFolderSchema(), Obj(map["id" := Num(Finite(1.0)), "name" := Str("name"), "folder" := Str("/name")]))
         == Obj(map["id" := Num(Finite(1.0)), "name" := Str("name"), "folder" := Str("/name")])
  {
    var schema := IdNameFolderSchema();
    var full := map["id" := Num(Finite(1.0)), "name" := Str("name"), "folder" := Str("/name")];
    assert schema.properties.Keys == full.Keys == {"id", "name", "folder"};
    assert Populated(variant, schema.properties["id"], full["id"]);
    assert Populated(variant, schema.properties["name"], full["name"]);
    assert Populated(variant, schema.properties["folder"], full["folder"]);
    assert Populated(variant, schema, Obj(full));
    PopulatedIsFixedPoint(variant, schema, Obj(full));
  }

  /** The schema of the "required default props" test, with `name` built
      by the dist `schemaDefault`; its own name list is never read. */
  function RequiredNameSchema(): Schema {
    ObjectOf(map["id" := NumberSchema, "name" := SchemaDefaultRequired(StringSchema, Str("")), "folder" := StringSchema])
      .(required := Names({"id", "name", "folder"}))
  }

  /** With the dist `schemaDefault`, a missing `name` is filled with its
      default `''` while the unrequired `folder` stays unset. */
  lemma RequiredDefaultExample(b: Builtins)
    ensures Fillable(RequiredNameSchema(), Obj(map["id" := Num(Finite(1.0))]))
    ensures Fill(Coercing(b), RequiredNameSchema(), Obj(map["id" := Num(Finite(1.0))])) == Obj(map["id" := Num(Finite(1.0)), "name" := Str("")])
  {
    var schema, node := RequiredNameSchema(), map["id" := Num(Finite(1.0))];
    var filled := RequiredDefaultFirstPass(b);
    assert filled == map["id" := Num(Finite(1.0)), "name" := Str("")];
    assert CopiedFields(filled, node) == map[];
    calc {
      Fill(Coercing(b), schema, Obj(node));
      FillObject(Coercing(b), schema, Obj(node));
      Obj(filled + CopiedFields(filled, node));
    }
  }

  lemma RequiredNameFillable()
    ensures Fillable(RequiredNameSchema(), Obj(map["id" := Num(Finite(1.0))]))
  {
    var schema, node := RequiredNameSchema(), map["id" := Num(Finite(1.0))];
    assert schema.properties.Keys == {"id", "name", "folder"};
  }

  /** The first pass of the example above sets `id` and `name`. */
  lemma RequiredDefaultFirstPass(b: Builtins) returns (filled: map<string, Value>)
    ensures Fillable(RequiredNameSchema(), Obj(map["id" := Num(Finite(1.0))]))
    ensures filled == FilledProperties(Coercing(b), RequiredNameSchema(), Obj(map["id" := Num(Finite(1.0))]))
    ensures filled.Keys == {"id", "name"} && filled["id"] == Num(Finite(1.0)) && filled["name"] == Str("")
  {
    var schema, node := RequiredNameSchema(), map["id" := Num(Finite(1.0))];
    RequiredNameFillable();
    assert schema.properties.Keys == {"id", "name", "folder"};
    filled := FilledProperties(Coercing(b), schema, Obj(node));
    assert Lookup(node, "id") == Num(Finite(1.0)) && Lookup(node, "name") == Undef && Lookup(node, "folder") == Undef;
    assert filled["id"] == FillLeaf(Coercing(b), NumberSchema, Num(Finite(1.0)));
    assert filled["name"] == FillLeaf(Coercing(b), schema.properties["name"], Undef);
  }

  /** The schema of the same test with `name` built by the `schemaDefault`
      of src/json-schema.js, which leaves `required` unset. */
  function PlainNameSchema(): Schema {
    ObjectOf(map["id" := NumberSchema, "name" := SchemaDefault(StringSchema, Str("")), "folder" := StringSchema])
      .(required := Names({"id", "name", "folder"}))
  }

  /** With the src `schemaDefault` a missing `name` stays unset, so the
      test's expected `name: ''` is not produced. */
  lemma PlainDefaultExample(variant: Variant)
    ensures Fillable(PlainNameSchema(), Obj(map["id" := Num(Finite(1.0))]))
    ensures "name" !in Fill(variant, PlainNameSchema(), Obj(map["id" := Num(Finite(1.0))])).fields
  {
    var schema, node := PlainNameSchema(), map["id" := Num(Finite(1.0))];
    assert schema.properties.Keys == {"id", "name", "folder"};
    assert Fillable(schema, Obj(node));
    PlainDefaultIsNotFilled(variant, schema, Obj(node), "name", StringSchema, Str(""));
  }

  /** The loop of `processArray` visits the characters of a string, so a
      string under an array of strings becomes an array of one-character
      strings. */
  lemma StringArrayIsSplit(variant: Variant)
    ensures Fillable(ArraySchema(StringSchema, Undef), Str("ab"))
    ensures Fill(variant, ArraySchema(StringSchema, Undef), Str("ab")) == Arr([Str("a"), Str("b")])
  {
    var r := Fill(variant, ArraySchema(StringSchema, Undef), Str("ab"));
    assert r.elems == [Str("a"), Str("b")];
  }

  /** Leaves of type `integer` are never converted, and the plain variant
      converts nothing: the tests expecting `'10'` to become `10` under
      `integer` and `[11, 'asdf']` to become `['11', 'asdf']` under the
      plain variant are not met. */
  lemma UnconvertedExamples(variant: Variant)
    ensures Fill(variant, Bare("integer"), Str("10")) == Str("10")
    ensures Fill(Plain, ArraySchema(StringSchema, Undef), Arr([Num(Finite(11.0)), Str("asdf")]))
         == Arr([Num(Finite(11.0)), Str("asdf")])
  {
    var r := Fill(Plain, ArraySchema(StringSchema, Undef), Arr([Num(Finite(11.0)), Str("asdf")]));
    assert r.elems == [Num(Finite(11.0)), Str("asdf")];
  }

  /** The coercing variant converts leaves to their schema's type and keeps
      other leaf types as they are. */
  lemma CoercionExamples(b: Builtins)
    ensures Fill(Coercing(b), StringSchema, Str("asdf")) == Str("asdf")
    ensures Fill(Coercing(b), StringSchema, Num(Finite(10.0))) == Str(b.text(Num(Finite(10.0))))
    ensures Fill(Coercing(b), NumberSchema, Str("10")) == Num(b.number(Str("10")))
    ensures Fill(Coercing(b), DateSchema, Str("2018")) == Str("2018")
    ensures Fill(Coercing(b), DateSchema, Undef) == Undef
    ensures Fill(Coercing(b), ArraySchema(StringSchema, Undef), Arr([Num(Finite(11.0)), Str("asdf")]))
         == Arr([Str(b.text(Num(Finite(11.0)))), Str("asdf")])
  {
    var r := Fill(Coercing(b), ArraySchema(StringSchema, Undef), Arr([Num(Finite(11.0)), Str("asdf")]));
    assert r.elems == [Str(b.text(Num(Finite(11.0)))), Str("asdf")];
  }
}

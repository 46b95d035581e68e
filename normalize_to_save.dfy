/** The normalization engine (`normalizeToSave`): prepares a value for
    saving by walking a schema and a value together. Empty objects become
    `null`, `undefined` fields are dropped, numbers are parsed with `,` read
    as a decimal point, non-strings under a string schema are rendered as
    text, and the date placeholder `"-"` becomes the schema default.

    `Normalize` and its companions specify the result; the methods
    `ProcessNode`, `ProcessObject` and `ProcessArray` build it the way the
    source does (two passes filling a result object, a loop pushing onto a
    result array) and are proved to return exactly that. */
module NormalizeToSave {
  import opened JsValues
  import opened JsonSchema

  /** `omitBy(node, isUndefined)`: the fields of a node that are not
      `undefined`. */
  function DefinedFields(node: map<string, Value>): map<string, Value> {
    map k | k in node && node[k] != Undef :: node[k]
  }

  /** Whether a schema property is written into the result: its schema is
      truthy-required, or the node defines the field. */
  predicate Included(property: Schema, value: Value) {
    RequiredIsTruthy(property.required) || value != Undef
  }

  /** lodash `replace(s, /,/g, '.')`: every comma becomes a point. */
  function ReplaceCommas(s: string): (r: string)
    ensures |r| == |s|
    ensures forall i :: 0 <= i < |s| ==> r[i] == (if s[i] == ',' then '.' else s[i])
  {
    if s == [] then [] else [if s[0] == ',' then '.' else s[0]] + ReplaceCommas(s[1..])
  }

  /** `processNumber`: an absent or empty input gives `undefined`; anything
      else is handed to `Number`, a string with its commas turned into
      points first. */
  function NormalizeNumber(b: Builtins, data: Value): (r: Value)
    ensures r == Undef <==> data == Undef || data == Null || data == Str("")
    ensures r != Undef ==> r.Num?
    ensures !data.Str? && r != Undef ==> r == Num(b.number(data))
  {
    if data == Undef || data == Null || data == Str("") then Undef
    else if data.Str? && ',' in data.s then Num(b.number(Str(ReplaceCommas(data.s))))
    else Num(b.number(data))
  }

  /** `processString`: `undefined` stays, strings stay, anything else is
      rendered with `String`. */
  function NormalizeString(b: Builtins, data: Value): (r: Value)
    ensures r == Undef <==> data == Undef
    ensures r != Undef ==> r.Str?
    ensures data.Str? ==> r == data
    ensures data != Undef && !data.Str? ==> r == Str(b.text(data))
  {
    if data == Undef then data
    else if !data.Str? then Str(b.text(data))
    else data
  }

  /** `processDate`: `undefined` and the placeholder `"-"` give the schema
      default; any other value is kept as it is. */
  function NormalizeDate(schema: Schema, data: Value): (r: Value)
    ensures data == Undef || data == Str("-") ==> r == schema.defaultValue
    ensures data != Undef && data != Str("-") ==> r == data
  {
    if data == Undef || data == Str("-") then schema.defaultValue else data
  }

  /** The inputs on which the source runs without throwing and which the
      model covers: under an object schema, `undefined`, `null`, a boolean,
      a number or a plain object; under an array schema with `items`,
      `undefined`, an array or a string, whose characters `for...of`
      visits (it throws on `null`, booleans, numbers and plain objects). */
  predicate Normalizable(schema: Schema, data: Value)
    decreases schema
  {
    if schema.kind == "object" then
      && (data.Undef? || data.Null? || data.Bool? || data.Num? || data.Obj?)
      && forall k :: k in schema.properties && schema.hasProperties ==>
           Normalizable(schema.properties[k], Lookup(Fields(data), k))
    else if schema.kind == "array" then
      || data == Undef
      || schema.items.None?
      || ((data.Arr? || data.Str?) &&
          forall i :: 0 <= i < |Elements(data)| ==> Normalizable(schema.items.value, Elements(data)[i]))
    else true
  }

  /** `processNode`: dispatch on `type`; an unknown type keeps the data. */
  function Normalize(b: Builtins, schema: Schema, data: Value): (r: Value)
    requires Normalizable(schema, data)
    ensures schema.kind == "object" ==> r == Null || r.Obj?
    ensures schema.kind == "array" && data != Undef ==> r.Arr?
    ensures schema.kind !in {"object", "array", "number", "string", "date"} ==> r == data
    decreases schema, 2
  {
    if schema.kind == "object" then NormalizeObject(b, schema, data)
    else if schema.kind == "array" then NormalizeArray(b, schema, data)
    else if schema.kind == "number" then NormalizeNumber(b, data)
    else if schema.kind == "string" then NormalizeString(b, data)
    else if schema.kind == "date" then NormalizeDate(schema, data)
    else data
  }

  /** `processObject`: `null` when the node has no defined field; otherwise
      the defined fields, overwritten and extended by the included schema
      properties. */
  function NormalizeObject(b: Builtins, schema: Schema, data: Value): Value
    requires schema.kind == "object" && Normalizable(schema, data)
    decreases schema, 1
  {
    var defined := DefinedFields(Fields(data));
    if defined == map[] then Null else Obj(defined + NormalizedProperties(b, schema, data))
  }

  /** Every included schema property, normalized against its field. */
  function NormalizedProperties(b: Builtins, schema: Schema, data: Value): map<string, Value>
    requires schema.kind == "object" && Normalizable(schema, data)
    decreases schema, 0
  {
    var node := Fields(data);
    map k | k in PropertyNames(schema) && Included(schema.properties[k], Lookup(node, k))
      :: Normalize(b, schema.properties[k], Lookup(node, k))
  }

  /** `processArray`: an `undefined` input gives the default when it is
      truthy; otherwise each element (each character of a string) is
      normalized against `items`, and without `items` the result is
      empty. */
  function NormalizeArray(b: Builtins, schema: Schema, data: Value): Value
    requires schema.kind == "array" && Normalizable(schema, data)
    decreases schema, 1
  {
    if data == Undef then
      if Truthy(schema.defaultValue) then schema.defaultValue else Undef
    else if schema.items.None? then Arr([])
    else
      var elems := Elements(data);
      Arr(seq(|elems|, i requires 0 <= i < |elems| => Normalize(b, schema.items.value, elems[i])))
  }

  method ProcessNode(b: Builtins, schema: Schema, data: Value) returns (r: Value)
    requires Normalizable(schema, data)
    ensures r == Normalize(b, schema, data)
    decreases schema, 1
  {
    if schema.kind == "object" {
      r := ProcessObject(b, schema, data);
    } else if schema.kind == "array" {
      r := ProcessArray(b, schema, data);
    } else if schema.kind == "number" {
      r := NormalizeNumber(b, data);
    } else if schema.kind == "string" {
      r := NormalizeString(b, data);
    } else if schema.kind == "date" {
      r := NormalizeDate(schema, data);
    } else {
      r := data;
    }
  }

  method ProcessObject(b: Builtins, schema: Schema, data: Value) returns (r: Value)
    requires schema.kind == "object" && Normalizable(schema, data)
    ensures r == NormalizeObject(b, schema, data)
    decreases schema, 0
  {
    var node := Fields(data);
    if DefinedFields(node) == map[] {
      return Null;
    }
    // first pass: copy every defined field of the node
    var result := CopyDefinedFields(node);
    ghost var defined := result;
    // second pass: write the included schema properties over them
    ghost var properties := NormalizedProperties(b, schema, data);
    var names := PropertyNames(schema);
    while names != {}
      invariant names <= PropertyNames(schema)
      invariant forall k :: k in result <==> k in defined || (k in properties && k !in names)
      invariant forall k :: k in result ==> result[k] == if k in properties && k !in names then properties[k] else defined[k]
      decreases names
    {
      var name :| name in names;
      var value := Lookup(node, name);
      if Included(schema.properties[name], value) {
        var v := ProcessNode(b, schema.properties[name], value);
        result := result[name := v];
      }
      names := names - {name};
    }
    assert result == defined + properties;
    r := Obj(result);
  }

  /** The first pass of `processObject`: the fields of `node` that are not
      `undefined`. */
  method CopyDefinedFields(node: map<string, Value>) returns (result: map<string, Value>)
    ensures result == DefinedFields(node)
  {
    result := map[];
    var rest := node.Keys;
    while rest != {}
      invariant rest <= node.Keys
      invariant forall k :: k in result <==> k in node && k !in rest && node[k] != Undef
      invariant forall k :: k in result ==> result[k] == node[k]
      decreases rest
    {
      var name :| name in rest;
      if node[name] != Undef {
        result := result[name := node[name]];
      }
      rest := rest - {name};
    }
  }

  method ProcessArray(b: Builtins, schema: Schema, data: Value) returns (r: Value)
    requires schema.kind == "array" && Normalizable(schema, data)
    ensures r == NormalizeArray(b, schema, data)
    decreases schema, 0
  {
    if data == Undef {
      if Truthy(schema.defaultValue) {
        return schema.defaultValue;
      }
      return Undef;
    }
    var result: seq<Value> := [];
    if schema.items.Some? {
      var elems := Elements(data);
      for i := 0 to |elems|
        invariant |result| == i
        invariant forall j :: 0 <= j < i ==> result[j] == Normalize(b, schema.items.value, elems[j])
      {
        var v := ProcessNode(b, schema.items.value, elems[i]);
        result := result + [v];
      }
    }
    r := Arr(result);
  }
}

/** What the normalization engine promises, stated on its specification. */
module NormalizeToSaveProperties {
  import opened JsValues
  import opened JsonSchema
  import opened NormalizeToSave

  /** The text handed to `Number` never holds a comma: a non-empty string
      is parsed as the same string with every comma made a point, whether
      or not the source took its `includes(data, ',')` branch. */
  lemma NumberSeesNoComma(b: Builtins, s: string)
    requires s != ""
    ensures ',' !in ReplaceCommas(s)
    ensures NormalizeNumber(b, Str(s)) == Num(b.number(Str(ReplaceCommas(s))))
  {
    if ',' !in s {
      assert ReplaceCommas(s) == s;
    }
  }

  /** Strings that differ only in using `,` or `.` as decimal separator
      normalize to the same number, e.g. `'1,1'` and `'1.1'`. */
  lemma DecimalCommaIsPoint(b: Builtins, s: string, t: string)
    requires s != "" && t != ""
    requires ReplaceCommas(s) == ReplaceCommas(t)
    ensures NormalizeNumber(b, Str(s)) == NormalizeNumber(b, Str(t))
  {
    NumberSeesNoComma(b, s);
    NumberSeesNoComma(b, t);
  }

  lemma DecimalCommaExample(b: Builtins)
    ensures Normalize(b, NumberSchema, Str("1,1")) == Normalize(b, NumberSchema, Str("1.1"))
    ensures Normalize(b, NumberSchema, Str("1.1")) == Num(b.number(Str("1.1")))
  {
    assert ReplaceCommas("1,1") == "1.1";
    NumberSeesNoComma(b, "1,1");
    NumberSeesNoComma(b, "1.1");
  }

  /** A schema type the engine does not know keeps the data as it is. */
  lemma UnknownTypeKeepsData(b: Builtins, schema: Schema, data: Value)
    requires schema.kind !in {"object", "array", "number", "string", "date"}
    ensures Normalizable(schema, data)
    ensures Normalize(b, schema, data) == data
  {
  }

  /** An object collapses to `null` exactly when the node has no defined
      field, whatever its schema requires; otherwise it is an object. */
  lemma ObjectIsNullIffEmpty(b: Builtins, schema: Schema, data: Value)
    requires schema.kind == "object" && Normalizable(schema, data)
    ensures Normalize(b, schema, data) == Null <==> forall k :: k in Fields(data) ==> Fields(data)[k] == Undef
    ensures Normalize(b, schema, data) != Null ==> Normalize(b, schema, data).Obj?
  {
    var node := Fields(data);
    if exists k :: k in node && node[k] != Undef {
      var k :| k in node && node[k] != Undef;
      assert k in DefinedFields(node);
    }
  }

  /** Every defined field of the node is kept, with its own value unless a
      schema property of that name is written over it; `undefined` fields
      are dropped unless a schema property brings them back. */
  lemma ObjectKeepsDefinedFields(b: Builtins, schema: Schema, data: Value, name: string)
    requires schema.kind == "object" && Normalizable(schema, data)
    requires DefinedFields(Fields(data)) != map[]
    ensures Normalize(b, schema, data).Obj?
    ensures var node, r := Fields(data), Normalize(b, schema, data).fields;
      && (name in node && node[name] != Undef ==> name in r)
      && (name in node && node[name] != Undef && name !in PropertyNames(schema) ==> r[name] == node[name])
      && (name !in PropertyNames(schema) ==> (name in r <==> name in node && node[name] != Undef))
  {
    var node := Fields(data);
    var props := NormalizedProperties(b, schema, data);
    assert Normalize(b, schema, data) == Obj(DefinedFields(node) + props);
    assert name !in PropertyNames(schema) ==> name !in props;
  }

  /** A schema property is in the result exactly when its schema is
      truthy-required or the node defines it, and then holds the property's
      normalization of the field. */
  lemma ObjectIncludesProperty(b: Builtins, schema: Schema, data: Value, name: string)
    requires schema.kind == "object" && Normalizable(schema, data)
    requires DefinedFields(Fields(data)) != map[]
    requires name in PropertyNames(schema)
    ensures Normalize(b, schema, data).Obj?
    ensures var node, r, p := Fields(data), Normalize(b, schema, data).fields, schema.properties[name];
      && (name in r <==> RequiredIsTruthy(p.required) || Lookup(node, name) != Undef)
      && (name in r ==> r[name] == Normalize(b, p, Lookup(node, name)))
  {
    var node := Fields(data);
    var props := NormalizedProperties(b, schema, data);
    assert Normalize(b, schema, data) == Obj(DefinedFields(node) + props);
    if name in node && node[name] != Undef {
      assert name in DefinedFields(node);
    }
  }

  /** `undefined` gives the default when truthy; otherwise the result has
      the input's length and element `i` is element `i` normalized against
      `items` (for a string, its `i`-th character), and without `items` it
      is empty. */
  lemma ArrayRule(b: Builtins, schema: Schema, data: Value)
    requires schema.kind == "array" && Normalizable(schema, data)
    ensures var r := Normalize(b, schema, data);
      && (data == Undef && Truthy(schema.defaultValue) ==> r == schema.defaultValue)
      && (data == Undef && !Truthy(schema.defaultValue) ==> r == Undef)
      && (data != Undef && schema.items.None? ==> r == Arr([]))
      && (data != Undef && schema.items.Some? ==>
            r.Arr? && |r.elems| == |Elements(data)| &&
            forall i :: 0 <= i < |Elements(data)| ==> r.elems[i] == Normalize(b, schema.items.value, Elements(data)[i]))
  {
  }

  /** Decorations that only describe a schema (`withId`, `exactSchema`,
      the node's own `required` list) do not change what it does. */
  lemma NormalizeReadsOnlyEngineKeys(b: Builtins, s: Schema, t: Schema, data: Value)
    requires SameForEngines(s, t)
    ensures Normalizable(s, data) <==> Normalizable(t, data)
    ensures Normalizable(s, data) ==> Normalize(b, s, data) == Normalize(b, t, data)
  {
    if Normalizable(s, data) && s.kind == "object" {
      assert NormalizedProperties(b, s, data) == NormalizedProperties(b, t, data);
    }
  }

  /** `undefined` is accepted under every schema. */
  lemma {:induction false} UndefinedIsNormalizable(schema: Schema)
    ensures Normalizable(schema, Undef)
    decreases schema
  {
    if schema.kind == "object" {
      forall k | k in schema.properties && schema.hasProperties
        ensures Normalizable(schema.properties[k], Lookup(Fields(Undef), k))
      {
        UndefinedIsNormalizable(schema.properties[k]);
      }
    }
  }

  /** Data already in the shape normalization produces: non-empty objects
      with no `undefined` field and every truthy-required property present,
      arrays under a schema with `items`, numbers, strings, and dates other
      than the placeholder. */
  predicate NormalForm(schema: Schema, data: Value)
    decreases schema
  {
    if schema.kind == "object" then
      && data.Obj? && data.fields != map[]
      && (forall k :: k in data.fields ==> data.fields[k] != Undef)
      && (forall k :: k in PropertyNames(schema) && k !in data.fields ==> !RequiredIsTruthy(schema.properties[k].required))
      && (forall k :: k in PropertyNames(schema) && k in data.fields ==> NormalForm(schema.properties[k], data.fields[k]))
    else if schema.kind == "array" then
      && data.Arr? && schema.items.Some?
      && forall i :: 0 <= i < |data.elems| ==> NormalForm(schema.items.value, data.elems[i])
    else if schema.kind == "number" then data.Num?
    else if schema.kind == "string" then data.Str?
    else if schema.kind == "date" then data != Undef && data != Str("-")
    else true
  }

  /** Normalizing data that is already in normal form gives it back, given
      that `Number` of a number is that number, as in JavaScript. */
  lemma {:induction false} NormalFormIsFixedPoint(b: Builtins, schema: Schema, data: Value)
    requires forall x :: b.number(Num(x)) == x
    requires NormalForm(schema, data)
    ensures Normalizable(schema, data)
    ensures Normalize(b, schema, data) == data
    decreases schema
  {
    if schema.kind == "object" {
      var node := data.fields;
      forall k | k in schema.properties && schema.hasProperties
        ensures Normalizable(schema.properties[k], Lookup(node, k))
      {
        if k in node {
          NormalFormIsFixedPoint(b, schema.properties[k], node[k]);
        } else {
          UndefinedIsNormalizable(schema.properties[k]);
        }
      }
      assert Normalizable(schema, data);
      assert DefinedFields(node) == node;
      var props := NormalizedProperties(b, schema, data);
      forall k | k in props
        ensures k in node && props[k] == node[k]
      {
        NormalFormIsFixedPoint(b, schema.properties[k], node[k]);
      }
      assert node + props == node;
    } else if schema.kind == "array" {
      var items := schema.items.value;
      forall i | 0 <= i < |data.elems|
        ensures Normalizable(items, data.elems[i]) && Normalize(b, items, data.elems[i]) == data.elems[i]
      {
        NormalFormIsFixedPoint(b, items, data.elems[i]);
      }
      assert Normalizable(schema, data);
      assert NormalizeArray(b, schema, data).elems == data.elems;
    }
  }

  /** The object schema of src/normalize-to-save.spec.ts: a required
      `type` property holding `code`, `id` and `description`. */
  function CodeDescriptionSchema(): Schema {
    ObjectOf(map["code" := StringSchema, "id" := NumberSchema, "description" := StringSchema]).(required := Flag(true))
  }

  function EntrySchema(): Schema {
    ObjectOf(map["type" := CodeDescriptionSchema()])
  }

  /** An entry holding only a defined `type` keeps just that field,
      normalized against the nested schema. */
  lemma EntryWithType(b: Builtins, t: Value)
    requires t != Undef && Normalizable(CodeDescriptionSchema(), t)
    ensures Normalizable(EntrySchema(), Obj(map["type" := t]))
    ensures Normalize(b, EntrySchema(), Obj(map["type" := t])) == Obj(map["type" := Normalize(b, CodeDescriptionSchema(), t)])
  {
    var entry := map["type" := t];
    assert PropertyNames(EntrySchema()) == {"type"};
    assert DefinedFields(entry) == entry;
    var properties := NormalizedProperties(b, EntrySchema(), Obj(entry));
    assert properties == map["type" := Normalize(b, CodeDescriptionSchema(), t)];
    calc {
      Normalize(b, EntrySchema(), Obj(entry));
      NormalizeObject(b, EntrySchema(), Obj(entry));
      Obj(entry + properties);
    }
  }

  /** An empty nested object becomes `null`. */
  lemma EmptyNestedObjectBecomesNull(b: Builtins)
    ensures Normalizable(EntrySchema(), Obj(map["type" := Obj(map[])]))
    ensures Normalize(b, EntrySchema(), Obj(map["type" := Obj(map[])])) == Obj(map["type" := Null])
  {
    assert Normalizable(CodeDescriptionSchema(), Obj(map[]));
    assert Normalize(b, CodeDescriptionSchema(), Obj(map[])) == Null by {
      assert DefinedFields(map[]) == map[];
    }
    EntryWithType(b, Obj(map[]));
  }

  /** A field the schema does not name is kept; the required `type` that the
      entry lacks is written as `null`. */
  lemma ExtraFieldIsKept(b: Builtins)
    ensures Normalizable(EntrySchema(), Obj(map["extra" := Str("234")]))
    ensures Normalize(b, EntrySchema(), Obj(map["extra" := Str("234")]))
         == Obj(map["extra" := Str("234"), "type" := Null])
  {
    var entry := map["extra" := Str("234")];
    var properties := MissingTypeIsNull(b);
    assert DefinedFields(entry) == entry;
    assert "extra" in DefinedFields(Fields(Obj(entry)));
    calc {
      Normalize(b, EntrySchema(), Obj(entry));
      NormalizeObject(b, EntrySchema(), Obj(entry));
      Obj(entry + properties);
    }
  }

  /** The schema walk of the example above writes the missing required
      `type` as `null`. */
  lemma MissingTypeIsNull(b: Builtins) returns (properties: map<string, Value>)
    ensures Normalizable(EntrySchema(), Obj(map["extra" := Str("234")]))
    ensures properties == NormalizedProperties(b, EntrySchema(), Obj(map["extra" := Str("234")]))
    ensures properties == map["type" := Null]
  {
    var entry := map["extra" := Str("234")];
    UndefinedIsNormalizable(CodeDescriptionSchema());
    assert Normalize(b, CodeDescriptionSchema(), Undef) == Null by {
      assert DefinedFields(map[]) == map[];
    }
    assert PropertyNames(EntrySchema()) == {"type"};
    properties := NormalizedProperties(b, EntrySchema(), Obj(entry));
  }

  /** A number the node does not define is not written. */
  lemma UndefinedNumberIsNotWritten(b: Builtins)
    ensures Normalizable(EntrySchema(), Obj(map["type" := Obj(map["code" := Str("asd")])]))
    ensures Normalize(b, EntrySchema(), Obj(map["type" := Obj(map["code" := Str("asd")])]))
         == Obj(map["type" := Obj(map["code" := Str("asd")])])
  {
    CodeOnlyIsKept(b);
    EntryWithType(b, Obj(map["code" := Str("asd")]));
  }

  /** The inner object of the example above comes back unchanged: neither
      `id` nor `description` is required or defined. */
  lemma CodeOnlyIsKept(b: Builtins)
    ensures Normalizable(CodeDescriptionSchema(), Obj(map["code" := Str("asd")]))
    ensures Normalize(b, CodeDescriptionSchema(), Obj(map["code" := Str("asd")])) == Obj(map["code" := Str("asd")])
  {
    var inner := map["code" := Str("asd")];
    var properties := CodeOnlyProperties(b);
    assert properties == inner;
    assert DefinedFields(inner) == inner;
    calc {
      Normalize(b, CodeDescriptionSchema(), Obj(inner));
      NormalizeObject(b, CodeDescriptionSchema(), Obj(inner));
      Obj(inner + properties);
    }
  }

  /** The schema walk of the example above writes only `code`. */
  lemma CodeOnlyProperties(b: Builtins) returns (properties: map<string, Value>)
    ensures Normalizable(CodeDescriptionSchema(), Obj(map["code" := Str("asd")]))
    ensures properties == NormalizedProperties(b, CodeDescriptionSchema(), Obj(map["code" := Str("asd")]))
    ensures properties.Keys == {"code"} && properties["code"] == Str("asd")
  {
    var inner := map["code" := Str("asd")];
    assert PropertyNames(CodeDescriptionSchema()) == {"code", "id", "description"};
    properties := NormalizedProperties(b, CodeDescriptionSchema(), Obj(inner));
    assert properties["code"] == NormalizeString(b, Str("asd"));
  }

  lemma DateAndStringExamples(b: Builtins)
    ensures Normalize(b, DateSchema, Str("-")) == Undef
    ensures Normalize(b, DateSchema, Undef) == Undef
    ensures Normalize(b, DateSchema, Str("asdf")) == Str("asdf")
    ensures Normalize(b, StringSchema, Str("-")) == Str("-")
    ensures Normalize(b, StringSchema, Undef) == Undef
    ensures Normalize(b, StringSchema, Num(Finite(0.0))) == Str(b.text(Num(Finite(0.0))))
  {
  }

  /** `for...of` over a string visits its characters, so a string under
      an array of strings becomes the array of its characters. */
  lemma StringArrayIsSplit(b: Builtins)
    ensures Normalizable(ArraySchema(StringSchema, Undef), Str("ab"))
    ensures Normalize(b, ArraySchema(StringSchema, Undef), Str("ab")) == Arr([Str("a"), Str("b")])
  {
    var r := Normalize(b, ArraySchema(StringSchema, Undef), Str("ab"));
    assert r.elems == [Str("a"), Str("b")];
  }
}

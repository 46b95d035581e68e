# json-schema-toolbox in Dafny

This project models the two schema interpreters of json-schema-toolbox, and the
schema builders they use, and proves properties of them.

- **Normalization** (`normalizeToSave`, src/normalize-to-save.ts, and the same
  code line for line in src/normalize-to-save.js:4-103; the table cites the
  TypeScript lines) prepares a value for saving. It walks a
  JSON-Schema-like descriptor and a data tree together:
  - an object with no defined field becomes `null`;
  - `undefined` fields are dropped and other fields are passed through;
  - a schema property is written when its schema is required or the data
    defines it;
  - number strings are parsed with `,` read as a decimal point;
  - non-strings under a string schema are rendered as text;
  - the date placeholder `"-"` becomes the schema default;
  - unknown types are kept as they are.
- **Defaulting** (`autoDefaults`, src/json-schema-fill-defaults.js, and the later
  copy in dist/json-schema-toolbox.js that also converts string and number
  leaves to their type) fills schema defaults into absent leaves. An object
  schema always yields a fresh object: first the included schema properties,
  then every present data field that the schema walk left unset. Arrays are
  filled element by element. An absent array takes a truthy schema default.
- **Builders** (src/json-schema.js, and the `schemaDefault` of
  dist/json-schema-toolbox.js that also sets `required: true`) are record
  constructors.

Both engines decide inclusion by the truthiness of a property's own `required`
key. A boolean `true` counts. A list of names also counts, because every
JavaScript array is truthy. The engines never read an object schema's own name
list.

## Layout

- `js_values.dfy`, module `JsValues`: JavaScript values (`undefined`, `null`,
  booleans, numbers, strings, arrays, plain objects as maps), truthiness, and
  the runtime conversions `Number(...)` and `String(...)`. The conversions are
  passed in as a `Builtins` record and are otherwise uninterpreted.
- `json_schema.dfy`, module `JsonSchema`: the schema descriptor and the
  builders.
- `normalize_to_save.dfy`:
  - module `NormalizeToSave` holds the specification functions (`Normalize`
    and its companions) and the methods `ProcessNode`, `ProcessObject`,
    `CopyDefinedFields` and `ProcessArray`. The methods build the result as
    the source does, with two passes over a result object and a loop that
    pushes onto a result array. Each is proved to return what the
    specification says.
  - module `NormalizeToSaveProperties` holds the properties.
- `fill_defaults.dfy`: the same split for the defaulting engine, in modules
  `FillDefaults` and `FillDefaultsProperties`. `Variant` selects between the
  src engine (`Plain`) and the dist engine (`Coercing`).

The inputs on which the source throws are excluded by the predicates
`Normalizable` and `Fillable`. For example, `for...of` or `.length` on a
`null` array throws, and `Object.keys` of a missing `properties` throws.
A string under an array schema is not excluded: both array loops visit its
characters, and `Elements` states what a loop visits.

Where the tests and the code disagree, the model follows the code. The tests
that the code does not satisfy are listed under "Left out", with the lemmas
that state what the code does instead.

## Model

| member | source | states |
|---|---|---|
| JsonSchema.SchemaDefault | src/json-schema.js:3-8 | the result has `default` set to the given value and equals the input in every other key |
| JsonSchema.SchemaDefaultRequired | dist/json-schema-toolbox.js:8-14 | the result has `default` set and `required` true, and equals the input in every other key |
| JsonSchema.SchemaRequired | src/json-schema.js:10-12 | only `required` changes, to the given value |
| JsonSchema.LimitedStringSchema | src/json-schema.js:17 | a string schema whose only other key is `maxLength` |
| JsonSchema.EnumSchema | src/json-schema.js:24-30 | a string schema with exactly `enum` and `default` set; an omitted default is `undefined` |
| JsonSchema.ArraySchema | src/json-schema.js:32-38 | type `array` with `items` set; `default` is `[]` when the argument is `undefined` and the given value otherwise, so `null` is kept |
| JsonSchema.ObjectSchema | src/json-schema.js:40-45 | type `object` with the given `properties`; an omitted argument gives no property names |
| JsonSchema.RequiredSchema | src/json-schema.js:47-53 | `required` becomes the set of property keys and `additionalProperties` becomes false; every other key is kept |
| JsonSchema.ExactSchema | src/json-schema.js:55-60 | only `additionalProperties` changes, to false |
| JsonSchema.OmitId | src/json-schema.js:62-64 | exactly `id`, `title` and `default` are removed |
| JsonSchema.WithId | src/json-schema.js:66-71 | only `id` changes |
| JsonSchema.DecorationsKeepEngineKeys | src/json-schema.js:10-71 | `withId`, `exactSchema`, `requiredSchema` and `schemaRequired` keep every key that the engines read at that node |
| JsonSchema.RequiredSchemaIsRequiredProperty | src/json-schema.js:47-53 | a schema built by `requiredSchema`, or by the dist `schemaDefault`, is truthy-required when used as a property |
| NormalizeToSave.ReplaceCommas | src/normalize-to-save.ts:13-16 | the same length as the input, with each comma replaced by a point and every other character kept |
| NormalizeToSave.NormalizeNumber | src/normalize-to-save.ts:9-18 | `undefined` exactly for `undefined`, `null` or `''`; otherwise a number, and `Number(data)` for non-strings |
| NormalizeToSave.NormalizeString | src/normalize-to-save.ts:20-28 | `undefined` exactly for `undefined`; a string is kept; any other value becomes `String(data)` |
| NormalizeToSave.NormalizeDate | src/normalize-to-save.ts:30-35 | `undefined` and `"-"` give the schema default; any other value is kept |
| NormalizeToSave.Normalize | src/normalize-to-save.ts:37-57 | an object schema gives `null` or an object; an array schema with defined data gives an array; an unknown type keeps the data |
| NormalizeToSave.ProcessNode | src/normalize-to-save.ts:37-57 | returns the normalization of the data |
| NormalizeToSave.ProcessObject | src/normalize-to-save.ts:59-84 | returns `null` when no field is defined; otherwise the defined fields with the included schema properties written over them |
| NormalizeToSave.CopyDefinedFields | src/normalize-to-save.ts:68-74 | the first loop collects exactly the fields that are not `undefined` |
| NormalizeToSave.ProcessArray | src/normalize-to-save.ts:86-103 | the loop returns the specified array: the default, `undefined`, `[]`, or the normalized elements |
| NormalizeToSaveProperties.NumberSeesNoComma | src/normalize-to-save.ts:13-17 | the text given to `Number` has no comma, whichever branch was taken |
| NormalizeToSaveProperties.DecimalCommaIsPoint | src/normalize-to-save.ts:13-17 | strings that differ only in `,` versus `.` give the same number |
| NormalizeToSaveProperties.DecimalCommaExample | src/normalize-to-save.spec.ts:61-77 | `'1,1'` and `'1.1'` both give `Number('1.1')` |
| NormalizeToSaveProperties.UnknownTypeKeepsData | src/normalize-to-save.ts:54-55 | every value is accepted under an unknown type and returned unchanged |
| NormalizeToSaveProperties.ObjectIsNullIffEmpty | src/normalize-to-save.ts:61-64 | the result is `null` if and only if no field is defined, whatever is required; otherwise it is an object |
| NormalizeToSaveProperties.ObjectKeepsDefinedFields | src/normalize-to-save.ts:66-74 | every defined field is in the result; one the schema does not name keeps its value; a name outside the schema is present exactly when the data defines it |
| NormalizeToSaveProperties.ObjectIncludesProperty | src/normalize-to-save.ts:75-81 | a schema property is in the result if and only if it is truthy-required or defined in the data, and then holds the normalization of the field |
| NormalizeToSaveProperties.ArrayRule | src/normalize-to-save.ts:86-103 | `undefined` gives the truthy default, else `undefined`; otherwise, with `items`, the result is as long as the array (or the string) and maps element (or character) `i` through `items`, and without `items` it is `[]` |
| NormalizeToSaveProperties.StringArrayIsSplit | src/normalize-to-save.ts:97-101 | the string `'ab'` under an array of strings is accepted and becomes `['a', 'b']` |
| NormalizeToSaveProperties.NormalizeReadsOnlyEngineKeys | src/normalize-to-save.ts:37-103 | two schemas that agree on `type`, `default`, `properties` and `items` normalize every value alike |
| NormalizeToSaveProperties.UndefinedIsNormalizable | src/normalize-to-save.ts:75-81 | `undefined` never makes the engine throw, under any schema |
| NormalizeToSaveProperties.NormalFormIsFixedPoint | src/normalize-to-save.ts:37-103 | data already in normal form normalizes to itself, given that `Number` of a number is that number |
| NormalizeToSaveProperties.EntryWithType | src/normalize-to-save.spec.ts:7-23 | an entry holding only a defined `type` becomes `type` normalized against the nested schema |
| NormalizeToSaveProperties.EmptyNestedObjectBecomesNull | src/normalize-to-save.spec.ts:35-41 | `{type: {}}` becomes `{type: null}` |
| NormalizeToSaveProperties.ExtraFieldIsKept | src/normalize-to-save.spec.ts:99-105 | `{extra: '234'}` becomes `{extra: '234', type: null}` |
| NormalizeToSaveProperties.MissingTypeIsNull | src/normalize-to-save.spec.ts:99-105 | the schema walk of that entry writes only the required `type`, as `null` |
| NormalizeToSaveProperties.UndefinedNumberIsNotWritten | src/normalize-to-save.spec.ts:79-87 | `{type: {code: 'asd'}}` comes back unchanged: no `id` is written |
| NormalizeToSaveProperties.CodeOnlyIsKept | src/normalize-to-save.spec.ts:79-87 | `{code: 'asd'}` comes back unchanged under the nested schema |
| NormalizeToSaveProperties.CodeOnlyProperties | src/normalize-to-save.spec.ts:79-87 | the schema walk of `{code: 'asd'}` writes only `code` |
| NormalizeToSaveProperties.DateAndStringExamples | src/normalize-to-save.spec.ts:108-141 | `'-'` and `undefined` dates give `undefined`, `'asdf'` is kept; strings `'-'` and `undefined` are kept, `0` becomes `String(0)` |
| FillDefaults.FillLeaf | src/json-schema-fill-defaults.js:18-21 | a present value is kept (in the coercing variant, converted to a string or number leaf's type); an absent one gives the present default, else `undefined`; the result is present if and only if the data or the default is |
| FillDefaults.Fill | src/json-schema-fill-defaults.js:10-23 | an object schema gives an object; an array schema with defined data gives an array; present data stays present |
| FillDefaults.ProcessNode | src/json-schema-fill-defaults.js:10-23 | returns the specified fill of the data |
| FillDefaults.ProcessObject | src/json-schema-fill-defaults.js:25-45 | returns the included schema properties, filled, together with the copied data fields |
| FillDefaults.CopyFields | src/json-schema-fill-defaults.js:37-43 | the second loop adds exactly the present data fields that have no present value yet |
| FillDefaults.ProcessArray | src/json-schema-fill-defaults.js:47-62 | the loop returns the specified array: the default, `undefined`, `[]`, or the filled elements |
| FillDefaultsProperties.NeverNull | src/json-schema-fill-defaults.js:26-44 | the result is never `null`, and an object schema always gives an object, even for `undefined` or `null` data |
| FillDefaultsProperties.CopiedAvoidsFilled | src/json-schema-fill-defaults.js:37-43 | the copying pass never touches a name that the schema pass set |
| FillDefaultsProperties.ObjectIncludesProperty | src/json-schema-fill-defaults.js:28-43 | a schema property is set if and only if it is truthy-required or the data field is present, and its filled value is never overwritten |
| FillDefaultsProperties.ObjectKeepsPresentFields | src/json-schema-fill-defaults.js:37-43 | every present data field is in the result; one the schema does not name keeps its value; absent ones the schema does not name are left out |
| FillDefaultsProperties.ArrayRule | src/json-schema-fill-defaults.js:47-62 | only `undefined` selects the default, when truthy, else `undefined`; any other value gives an array as long as the array or string it is (empty for other values), whose element `i` fills element or character `i` |
| FillDefaultsProperties.StringArrayIsSplit | src/json-schema-fill-defaults.js:56-61 | the string `'ab'` under an array of strings is accepted and becomes `['a', 'b']`, in both variants |
| FillDefaultsProperties.FillReadsOnlyEngineKeys | src/json-schema-fill-defaults.js:10-62 | two schemas that agree on `type`, `default`, `properties` and `items` fill every value alike |
| FillDefaultsProperties.RequiredListIsIgnored | src/json-schema.js:47-53 | `requiredSchema` does not change how its own object is filled |
| FillDefaultsProperties.NameListPropertyIsAlwaysSet | src/json-schema-fill-defaults.js:28-35 | a property whose schema carries a name list, even an empty one, is always set |
| FillDefaultsProperties.RequiredSchemaPropertyIsAlwaysSet | src/json-schema.js:47-53 | a property whose schema was built by `requiredSchema` is always set |
| FillDefaultsProperties.RequiredDefaultIsFilled | dist/json-schema-toolbox.js:8-14 | a leaf property built with the dist `schemaDefault` is set to its default when the data lacks it |
| FillDefaultsProperties.PlainDefaultIsNotFilled | src/json-schema.js:3-8 | a property built with the src `schemaDefault` stays unset when the data lacks it, unless it was already required |
| FillDefaultsProperties.ArrayOfUndefined | dist/json-schema-toolbox.js:227-248 | `fillDefaultsArray(items, undefined)` is `[]`; with an explicit `null` default the result is `undefined` |
| FillDefaultsProperties.UnstableDefaultsCounterexample | dist/json-schema-toolbox.js:181-242 | without stable defaults a second fill changes the result: a number leaf with default `'10'` fills `undefined` with `'10'` and then with `Number('10')`; an array with default `true` fills `undefined` with `true` and then with `[]` |
| FillDefaultsProperties.FillIsIdempotent | src/json-schema-fill-defaults.js:9-65 | for schemas whose defaults are already in filled form, filling twice is filling once |
| FillDefaultsProperties.ObjectFillIsIdempotent | src/json-schema-fill-defaults.js:25-45 | the object case of that statement |
| FillDefaultsProperties.ObjectReadsBack | src/json-schema-fill-defaults.js:25-45 | a filled object reads back the schema-pass value at every schema property, and its other fields are copied again |
| FillDefaultsProperties.ArrayFillIsIdempotent | src/json-schema-fill-defaults.js:47-62 | the array case of that statement |
| FillDefaultsProperties.PopulatedIsFixedPoint | src/json-schema-fill-defaults.js:9-65 | data with every required property present and no absent field comes back unchanged |
| FillDefaultsProperties.PopulatedObjectExample | src/fill-defaults.spec.js:22-26 | `{id: 1, name: 'name', folder: '/name'}` comes back unchanged |
| FillDefaultsProperties.RequiredDefaultExample | src/fill-defaults.spec.js:74-88 | with the dist engine and builders, `{id: 1}` becomes `{id: 1, name: ''}` |
| FillDefaultsProperties.RequiredNameFillable | src/fill-defaults.spec.js:74-88 | the example input is one on which the engine runs |
| FillDefaultsProperties.RequiredDefaultFirstPass | dist/json-schema-toolbox.js:208-215 | the schema pass of that example sets `id` to 1 and `name` to `''` |
| FillDefaultsProperties.PlainDefaultExample | src/fill-defaults.spec.js:74-88 | with the src `schemaDefault`, `{id: 1}` gets no `name`, so the test's expected `name: ''` is not produced |
| FillDefaultsProperties.UnconvertedExamples | src/fill-defaults.spec.js:113-132 | `'10'` under `integer` stays `'10'` in both variants, and the plain variant keeps `[11, 'asdf']` as it is |
| FillDefaultsProperties.CoercionExamples | dist/json-schema-toolbox.js:190-201 | `'asdf'` is kept; `10` becomes `String(10)`; `'10'` becomes `Number('10')`; a date `'2018'` is kept; an absent date is `undefined`; `[11, 'asdf']` becomes `[String(11), 'asdf']` |

## Left out

- Currying and glue are not modelled: `curryN`, the exported `normalizeToSave`, `fillDefaults` and `fillDefaultsArray` wrappers, and the reducer and default getters in src/fill-defaults.ts. `fillDefaultsArray` is stated once, through `ArrayOfUndefined`.
- `Number(...)` and `String(...)` are uninterpreted functions. NaN, decimal parsing and number formatting are not modelled.
- Object identity, aliasing and key order are not modelled. Results are values, so "a fresh object" holds trivially. Insertion order of keys is lost in a map.
- A field that is absent and a field holding `undefined` are treated alike wherever the source reads it with `node[name]`. Inherited prototype members, such as `toString`, are never found by a lookup.
- Strings and arrays given as data to an object schema are excluded by `Normalizable` and `Fillable`. lodash and `Object.keys` would treat them as index-keyed objects.
- An object with a `length` key given to an array schema in the defaulting engine is excluded by `Fillable`. The source would visit `dataNode[i]` for every `i` below that length.
- Characters are Unicode scalar values. `for...of` in the normalization engine visits code points, so it matches. The defaulting engine indexes UTF-16 code units, so a character outside the Basic Multilingual Plane would give two elements in the source and one in the model.
- FillDefaultsProperties.FillIsIdempotent: requires `StableDefaults`, because filling is not idempotent in general. `UnstableDefaultsCounterexample` shows two schemas where the second fill changes the result.
- The object schema's own `required` name list, `maxLength`, `enum`, `additionalProperties`, `id` and `title` are carried by the builders but read by neither engine.
- The dist copies of the builders that match src/json-schema.js are represented by the src versions.
- Test expectations the code does not meet are not stated as properties:
  - `integer` becoming `0` for `undefined` (src/fill-defaults.spec.js:118-121);
  - `'10'` becoming `10` under `integer` (src/fill-defaults.spec.js:113-117). Neither engine converts `integer` leaves; `UnconvertedExamples` states that the string is kept;
  - `[11, 'asdf']` becoming `['11', 'asdf']` with the src engine that the test imports (src/fill-defaults.spec.js:129-132). `UnconvertedExamples` states that the plain variant keeps the array; `CoercionExamples` states that the dist engine converts it;
  - `name: ''` being created with the src `schemaDefault` (src/fill-defaults.spec.js:74-88). That builder does not set `required`, so the result is `{id: 1}`, as `PlainDefaultExample` states. With the dist builder the expectation holds (`RequiredDefaultExample`);
  - the name-list `required` policy (src/fill-defaults.spec.js:32-52);
  - a `null` array default or a `null` array becoming `[]` (src/fill-defaults.spec.js:133-140). In the model, the first gives `undefined`, as `ArrayOfUndefined` states, and the second throws;
  - string and number conversion by the src engine (src/fill-defaults.spec.js:96-110). Only the dist engine converts.

/** JavaScript values as the two schema engines see them: `undefined`,
    `null`, booleans, numbers, strings, arrays and plain objects. A plain
    object is a map from property names to values; a property that was
    assigned `undefined` is a key mapped to `Undef`. */
module JsValues {

  datatype Option<+T> = None | Some(value: T)

  /** A JavaScript number. The engines never do arithmetic, they only
      produce numbers through `Number(...)` and test them for truthiness. */
  datatype Number = Finite(r: real) | Infinite(negative: bool) | NaN

  datatype Value =
    | Undef
    | Null
    | Bool(b: bool)
    | Num(n: Number)
    | Str(s: string)
    | Arr(elems: seq<Value>)
    | Obj(fields: map<string, Value>)

  /** The two conversions of the JavaScript runtime that the engines call:
      `Number(v)` and `String(v)`. They are left uninterpreted. */
  datatype Builtins = Builtins(number: Value -> Number, text: Value -> string)

  /** JavaScript truthiness (`if (v)`). */
  predicate Truthy(v: Value) {
    match v
    case Undef => false
    case Null => false
    case Bool(b) => b
    case Num(n) => n.Infinite? || (n.Finite? && n.r != 0.0)
    case Str(s) => s != ""
    case Arr(_) => true
    case Obj(_) => true
  }

  /** "Defined" in the defaulting engine: neither `undefined` nor `null`. */
  predicate IsPresent(v: Value) {
    v != Undef && v != Null
  }

  /** The own enumerable properties of a value that is not a string or an
      array: those of an object, and none for `undefined`, `null`, booleans
      and numbers. */
  function Fields(v: Value): map<string, Value>
  {
    if v.Obj? then v.fields else map[]
  }

  /** What a loop over a value visits: the elements of an array, the
      one-character strings of a string, and nothing for anything else
      (its `length` is `undefined`). */
  function Elements(v: Value): (r: seq<Value>)
    ensures v.Arr? ==> r == v.elems
    ensures v.Str? ==> |r| == |v.s| && forall i :: 0 <= i < |v.s| ==> r[i] == Str([v.s[i]])
    ensures !v.Arr? && !v.Str? ==> r == []
  {
    match v
    case Arr(elems) => elems
    case Str(s) => seq(|s|, i requires 0 <= i < |s| => Str([s[i]]))
    case _ => []
  }

  /** `m[name]` on a plain object: `undefined` for a missing key. */
  function Lookup(m: map<string, Value>, name: string): Value
  {
    if name in m then m[name] else Undef
  }
}

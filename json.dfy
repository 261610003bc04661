/** JSON values as `express.json()` hands them to a route handler, the property
    read that destructures a request body, and the two JavaScript tests the
    POST handler applies: truthiness (`!x`) and `typeof x === 'boolean'`. */
module Json {
  import opened Wrappers

  /** A parsed JSON value. `Num` holds the value of the parsed double; a
      literal that overflows to +/-Infinity (`1e400`) is represented by any
      non-zero real, and is truthy either way. ToBoolean of a double is false
      only for +0, -0 and NaN, and `JSON.parse` never yields NaN, so a number
      is falsy exactly when it is zero. Writing a value back out (where
      Infinity becomes `null`) belongs to serialisation, which is not
      modelled. */
  datatype Value =
    | Null
    | Bool(b: bool)
    | Num(n: real)
    | Str(s: string)
    | Arr(items: seq<Value>)
    | Obj(fields: map<string, Value>)

  /** Reading property `key` of a parsed request body; `None` is `undefined`. */
  function Field(body: map<string, Value>, key: string): Option<Value>
  {
    if key in body then Some(body[key]) else None
  }

  /** JavaScript's ToBoolean on a property read that may be `undefined`. */
  predicate Truthy(v: Option<Value>)
    ensures Truthy(v) ==> v.Some? && !v.value.Null?
  {
    match v
    case None => false
    case Some(Null) => false
    case Some(Bool(b)) => b
    case Some(Num(n)) => n != 0.0
    case Some(Str(s)) => s != ""
    case Some(Arr(_)) => true
    case Some(Obj(_)) => true
  }

  /** JavaScript's `typeof` on a property read that may be `undefined`
      (`null` and arrays are both `"object"`). */
  function TypeOf(v: Option<Value>): (r: string)
    ensures r in {"undefined", "object", "boolean", "number", "string"}
    ensures r == "undefined" <==> v.None?
  {
    match v
    case None => "undefined"
    case Some(Null) => "object"
    case Some(Bool(_)) => "boolean"
    case Some(Num(_)) => "number"
    case Some(Str(_)) => "string"
    case Some(Arr(_)) => "object"
    case Some(Obj(_)) => "object"
  }

  /** The five falsy values a JSON body can yield for a field: absent, `null`,
      `false`, `0` and `""`. */
  const FalsyValues: set<Option<Value>> :=
    {None, Some(Null), Some(Bool(false)), Some(Num(0.0)), Some(Str(""))}

  /** A field is falsy exactly when it is one of the five falsy values. */
  lemma FalsyExactly(v: Option<Value>)
    ensures !Truthy(v) <==> v in FalsyValues
  {
  }

  /** `typeof v === 'boolean'` holds exactly for a present JSON boolean. */
  lemma TypeOfBoolean(v: Option<Value>)
    ensures TypeOf(v) == "boolean" <==> v.Some? && v.value.Bool?
  {
  }
}

/** The closed abstraction of the JavaScript values that rows and literals hold,
    the exceptions the interpreter can raise, and JavaScript truthiness. */
module JsValues {

  /** A JavaScript value as the in-memory interpreter sees it. Objects are
      records from property name to value; numbers are reals (no NaN or
      Infinity). */
  datatype Value =
    | Undefined
    | Null
    | Bool(b: bool)
    | Number(n: real)
    | Str(s: string)
    | Object(fields: map<string, Value>)

  /** An exception: `new Error(message)`, or the TypeError raised when a
      property is read from `undefined` or `null`. */
  datatype JsError =
    | Thrown(message: string)
    | TypeError

  /** Either a value or the exception that was thrown instead. */
  datatype Result<+T> = Ok(value: T) | Err(error: JsError) {
    predicate IsFailure() {
      Err?
    }

    function PropagateFailure<U>(): Result<U>
      requires Err?
    {
      Err(error)
    }

    function Extract(): T
      requires Ok?
    {
      value
    }
  }

  datatype Option<+T> = None | Some(value: T)

  /** The boolean a value coerces to, as `Array.prototype.filter` coerces the
      callback's return value. */
  predicate Truthy(v: Value) {
    match v
    case Undefined => false
    case Null => false
    case Bool(b) => b
    case Number(n) => n != 0.0
    case Str(s) => s != ""
    case Object(_) => true
  }

  /** ToBoolean: exactly `undefined`, `null`, `false`, `0` and the empty
      string coerce to `false`; every other value, every object included,
      coerces to `true`. */
  lemma FalsyValues(v: Value)
    ensures !Truthy(v) <==> v in {Undefined, Null, Bool(false), Number(0.0), Str("")}
  {
  }

  /** The property access `v[name]`. */
  function GetProperty(v: Value, name: string): (r: Result<Value>)
    ensures r.Err? <==> v.Undefined? || v.Null?
    ensures r.Err? ==> r.error == TypeError
    ensures r.Ok? ==> r.value == (if v.Object? && name in v.fields then v.fields[name] else Undefined)
  {
    match v
    case Undefined => Err(TypeError)
    case Null => Err(TypeError)
    case Object(fields) => if name in fields then Ok(fields[name]) else Ok(Undefined)
    case _ => Ok(Undefined)
  }
}

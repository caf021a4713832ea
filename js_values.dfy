/** The untyped JavaScript values the result kit inspects, with the few
    language operations it applies to them: `typeof`, the `in` operator,
    property reads, `isNativeError` from `util/types`, and `String(x)`. */
module JsValues {
  import opened NumberText

  datatype Option<T> = None | Some(value: T)

  /** A JavaScript value. `Obj` is any non-error object; `props` holds the
      properties the result kit looks up on it (own or inherited). `Func` is a
      callable; `source` is the text `String` gives for it. `NativeError` is
      an object with the internal error slot (`new Error(...)`, a `TypeError`,
      ...): its `name` comes from its prototype, its `message` and optional
      `cause` are own properties. */
  datatype JsValue =
    | Undefined
    | Null
    | Bool(b: bool)
    | Num(n: SafeInteger)
    | Str(s: string)
    | Func(source: string)
    | Obj(props: map<string, JsValue>)
    | NativeError(name: string, message: string, cause: Option<JsValue>)

  /** The `typeof` operator; note that `typeof null` is "object". */
  function TypeOf(x: JsValue): string {
    match x
    case Undefined => "undefined"
    case Null => "object"
    case Bool(_) => "boolean"
    case Num(_) => "number"
    case Str(_) => "string"
    case Func(_) => "function"
    case Obj(_) => "object"
    case NativeError(_, _, _) => "object"
  }

  /** Values the `in` operator accepts without throwing a `TypeError`. Property
      reads on primitives do not throw, but the result kit only reads
      properties of objects, so the model restricts reads to these too. */
  predicate IsObjectLike(x: JsValue) {
    x != Null && (TypeOf(x) == "object" || TypeOf(x) == "function")
  }

  /** `key in x`. A function's own properties are not part of this model; the
      result kit never looks inside a function. */
  predicate HasProperty(x: JsValue, key: string)
    requires IsObjectLike(x)
  {
    match x
    case Obj(props) => key in props
    case NativeError(_, _, cause) =>
      key == "name" || key == "message" || (key == "cause" && cause.Some?)
    case _ => false
  }

  /** `x[key]`: the property's value, or `undefined` when there is none. */
  function Get(x: JsValue, key: string): (v: JsValue)
    requires IsObjectLike(x)
    ensures !HasProperty(x, key) ==> v == Undefined
  {
    match x
    case Obj(props) => if key in props then props[key] else Undefined
    case NativeError(name, message, cause) =>
      if key == "name" then Str(name)
      else if key == "message" then Str(message)
      else if key == "cause" && cause.Some? then cause.value
      else Undefined
    case _ => Undefined
  }

  /** `isNativeError(x)`: whether `x` carries the internal error slot. Only
      objects do, and a plain object never does, whatever its properties. */
  predicate IsNativeError(x: JsValue)
    ensures IsNativeError(x) ==> IsObjectLike(x) && TypeOf(x) == "object"
    ensures x.Obj? || x.Func? || TypeOf(x) != "object" ==> !IsNativeError(x)
  {
    x.NativeError?
  }

  /** `String(x)`. Objects convert with the default `Object.prototype.toString`
      and errors with `Error.prototype.toString`, which leaves out an empty name
      or an empty message together with its separator. */
  function ToString(x: JsValue): (s: string)
    ensures x.Str? ==> s == x.s
    ensures x.Num? ==> IsIntegerText(s) && IntegerValue(s) == x.n
    ensures x.NativeError? && x.name != "" && x.message != "" ==> s == x.name + ": " + x.message
  {
    match x
    case Undefined => "undefined"
    case Null => "null"
    case Bool(b) => if b then "true" else "false"
    case Num(n) => NumberToString(n)
    case Str(s) => s
    case Func(source) => source
    case Obj(_) => "[object Object]"
    case NativeError(name, message, _) =>
      if name == "" then message
      else if message == "" then name
      else name + ": " + message
  }
}

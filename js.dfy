/**
 * The JavaScript values that cross the message boundary between the page
 * and the worker, and the few pieces of JavaScript semantics the bridge
 * relies on: truthiness, string conversion, property reads and the
 * argument list of `Function.prototype.apply`.
 */
module Js {
  import opened Wrappers
  import opened Decimal

  /**
   * A JavaScript value. Numbers are modelled as integers: NaN, -0 and
   * fractions do not occur in the messages this system builds. Values that
   * arrive through `postMessage` are structured clones, so they carry no
   * functions and no custom `toString`. `MessageEventObj` is the event object
   * the worker's `onmessage` receives; its `data` is the posted value.
   */
  datatype JsValue =
    | Undefined
    | Null
    | Bool(b: bool)
    | Num(n: int)
    | Str(s: string)
    | Arr(items: seq<JsValue>)
    | Obj(props: map<string, JsValue>)
    | MessageEventObj(data: JsValue)

  /**
   * The one key that `obj[key] = v` on an ordinary object never creates as
   * an own property: the assignment runs the `__proto__` accessor inherited
   * from `Object.prototype`, which ignores a primitive value and otherwise
   * replaces the object's prototype.
   */
  const ProtoKey := "__proto__"

  /** The own properties of an ordinary object after `obj[key] = v`. */
  function Assign<V>(props: map<string, V>, key: string, v: V): map<string, V>
  {
    if key == ProtoKey then props else props[key := v]
  }

  /** JavaScript truthiness (ToBoolean) over the modelled values. */
  predicate Truthy(v: JsValue)
  {
    match v
    case Undefined => false
    case Null => false
    case Bool(b) => b
    case Num(n) => n != 0
    case Str(s) => s != ""
    case _ => true
  }

  /** The elements of an array joined by commas, as `Array.prototype.join()` does. */
  function Join(parts: seq<string>): string
  {
    if |parts| == 0 then ""
    else if |parts| == 1 then parts[0]
    else Join(parts[..|parts| - 1]) + "," + parts[|parts| - 1]
  }

  /** ToString, as a template literal or `'crunch_' + x` applies it. */
  function ToString(v: JsValue): string
    decreases v
  {
    match v
    case Undefined => "undefined"
    case Null => "null"
    case Bool(b) => if b then "true" else "false"
    case Num(n) => IntToString(n)
    case Str(s) => s
    case Arr(items) =>
      Join(seq(|items|, i requires 0 <= i < |items| =>
        if items[i].Undefined? || items[i].Null? then "" else ToString(items[i])))
    case Obj(_) => "[object Object]"
    case MessageEventObj(_) => "[object MessageEvent]"
  }

  /**
   * Reading property `key`: a TypeError on `undefined` and `null`, the own
   * property of a plain object, `data` of a message event, `length` of a
   * string or an array, and `undefined` otherwise (no prototype of these
   * values defines the keys this system reads).
   */
  function Prop(v: JsValue, key: string): Result<JsValue, string>
  {
    match v
    case Undefined => Failure("Cannot read properties of undefined (reading '" + key + "')")
    case Null => Failure("Cannot read properties of null (reading '" + key + "')")
    case Obj(props) => Success(if key in props then props[key] else Undefined)
    case MessageEventObj(data) => Success(if key == "data" then data else Undefined)
    case Str(s) => Success(if key == "length" then Num(|s|) else Undefined)
    case Arr(items) => Success(if key == "length" then Num(|items|) else Undefined)
    case _ => Success(Undefined)
  }

  /**
   * The argument list `f.apply(thisArg, v)` passes: none for `undefined` and
   * `null`, the elements of an array, the indexed entries `0 .. length-1` of
   * another object, and a TypeError for a primitive.
   */
  function ArgList(v: JsValue): Result<seq<JsValue>, string>
  {
    match v
    case Undefined => Success([])
    case Null => Success([])
    case Arr(items) => Success(items)
    case Obj(props) =>
      var len := if "length" in props && props["length"].Num? && props["length"].n > 0 then props["length"].n else 0;
      Success(seq(len, k requires 0 <= k < len => if NatToString(k) in props then props[NatToString(k)] else Undefined))
    case MessageEventObj(_) => Success([])
    case _ => Failure("CreateListFromArrayLike called on non-object")
  }

  /** A call returns normally or throws an `Error` carrying a message. */
  datatype Completion = Normal | Thrown(message: string)
}

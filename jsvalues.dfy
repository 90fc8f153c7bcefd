/**
 * JavaScript values as they occur in the client's parameter records and in
 * response bodies, together with the conversions the JavaScript host performs
 * and that the model leaves uninterpreted.
 */
module JsValues {

  /** An optional argument of a client method: `None` stands for `undefined`. */
  datatype Option<+T> = None | Some(value: T)

  /** A JavaScript value. Numbers are IEEE doubles in the source; here they are reals. */
  datatype Value =
    | Undefined
    | Null
    | Bool(b: bool)
    | Num(x: real)
    | Str(s: string)
    | Arr(items: seq<Value>)
    | Obj(fields: seq<(string, Value)>)

  /**
   * What the host supplies: `String(n)` for numbers, `JSON.stringify` for
   * arrays, and Node's `crypto.createHmac('sha256', key).update(msg).digest('hex')`.
   * Each is an arbitrary (but fixed, deterministic) function.
   */
  datatype Runtime = Runtime(
    numberToString: real -> string,
    jsonStringify: seq<Value> -> string,
    hmacSha256Hex: (string, string) -> string)

  /** The value sent for an optional numeric argument. */
  function OptNum(o: Option<real>): Value {
    if o.Some? then Num(o.value) else Undefined
  }

  /** The value sent for an optional string argument. */
  function OptStr(o: Option<string>): Value {
    if o.Some? then Str(o.value) else Undefined
  }

  /** The value of a defaulted argument: JavaScript substitutes the default for `undefined`. */
  function OrDefault<T>(o: Option<T>, default: T): T {
    if o.Some? then o.value else default
  }

  /**
   * `String(v)`, the conversion a template or `+` concatenation applies to a
   * value. Arrays are never converted this way by the client (they go through
   * `JSON.stringify`), so they are outside this function's domain.
   */
  function ToText(rt: Runtime, v: Value): string
    requires !v.Arr?
  {
    match v
    case Undefined => "undefined"
    case Null => "null"
    case Bool(b) => if b then "true" else "false"
    case Num(x) => rt.numberToString(x)
    case Str(s) => s
    case Obj(_) => "[object Object]"
  }
}

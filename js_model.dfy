/** The slice of JavaScript's value semantics that the library relies on:
    a small universe of values, truthiness, the short-circuit operators
    `||` and `&&`, property access on a plain object, and the shape of the
    web framework's request object as the library reads it. */
module JsModel {

  /** A JavaScript value. Numbers are reals plus NaN; objects are maps from
      property names to values. */
  datatype JsValue =
    | Undefined
    | Null
    | Bool(b: bool)
    | Num(x: real)
    | NaN
    | Str(s: string)
    | Obj(fields: map<string, JsValue>)

  /** JavaScript truthiness: undefined, null, false, 0, NaN and "" are falsy;
      every other value, every object included, is truthy. */
  predicate IsTruthy(v: JsValue) {
    match v
    case Undefined => false
    case Null => false
    case Bool(b) => b
    case Num(x) => x != 0.0
    case NaN => false
    case Str(s) => s != ""
    case Obj(_) => true
  }

  /** `a || b`: the left operand itself when it is truthy, otherwise the
      right operand itself (no conversion to a boolean). */
  function Or(a: JsValue, b: JsValue): (r: JsValue)
    ensures IsTruthy(a) ==> r == a
    ensures !IsTruthy(a) ==> r == b
    ensures IsTruthy(r) <==> IsTruthy(a) || IsTruthy(b)
  {
    if IsTruthy(a) then a else b
  }

  /** `a && b`: the left operand itself when it is falsy, otherwise the
      right operand itself. */
  function And(a: JsValue, b: JsValue): (r: JsValue)
    ensures !IsTruthy(a) ==> r == a
    ensures IsTruthy(a) ==> r == b
    ensures IsTruthy(r) <==> IsTruthy(a) && IsTruthy(b)
  {
    if IsTruthy(a) then b else a
  }

  /** `v.name` on a value that is known not to be undefined or null: an
      object's own property, and undefined for a missing property or a
      primitive. */
  function Member(v: JsValue, name: string): JsValue
  {
    if v.Obj? && name in v.fields then v.fields[name] else Undefined
  }

  /** The parts of the framework's request object that the library reads.
      `remoteAddress` stands for the legacy `_remoteAddress` field;
      `headers` is always present, keyed by lower-case header name. */
  datatype Request = Request(
    ip: JsValue,
    remoteAddress: JsValue,
    headers: map<string, JsValue>,
    connection: JsValue,
    originalUrl: JsValue)

  /** `req.headers[name]`: the header's value, undefined when absent. */
  function Header(req: Request, name: string): JsValue
  {
    if name in req.headers then req.headers[name] else Undefined
  }

  /** A JavaScript default parameter `p = d`: the default replaces the
      argument only when the argument is undefined (omitted). */
  function DefaultParam(arg: JsValue, default: JsValue): JsValue
  {
    if arg.Undefined? then default else arg
  }

  /** Every falsy value that is not undefined is kept by a default parameter
      but dropped by `||`: the two defaulting rules differ exactly there. */
  lemma DefaultParamVersusOr(arg: JsValue, default: JsValue)
    requires IsTruthy(default)
    ensures DefaultParam(arg, default) == Or(arg, default) <==> (IsTruthy(arg) || arg.Undefined?)
  {
  }
}

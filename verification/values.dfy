/**
  JavaScript values as far as the mock store tells them apart, and the few
  value-level operations that both revisions of the store share: truthiness,
  reading a field of a plain object, the one-field step of `_.merge`, and the
  "make sure mockResults is callable" wrapping.
 */
module Values {

  datatype Option<+T> = None | Some(value: T)

  /** A JavaScript value. `Fn` is a function supplied by the caller, known only
      by an identity; `Record` is a plain object (what `_.isPlainObject`
      accepts); `Instance` is any other object (an Error, a Date, an instance
      of a class), which is not a plain object. */
  datatype Value =
    | Undefined
    | Null
    | Bool(b: bool)
    | Num(n: int)
    | Str(s: string)
    | List(items: seq<Value>)
    | Record(fields: map<string, Value>)
    | Instance(id: nat)
    | Fn(id: nat)

  /** JavaScript truthiness (`if (v)`, `v || w`). */
  predicate Truthy(v: Value) {
    match v
    case Undefined => false
    case Null => false
    case Bool(b) => b
    case Num(n) => n != 0
    case Str(s) => s != ""
    case _ => true
  }

  /** A string option such as `options.query` taken as a condition: `None`
      stands for a missing or undefined property, and the empty string is
      falsy too. */
  predicate Present(o: Option<string>) {
    o.Some? && o.value != ""
  }

  /** What the store keeps as `mockResults`: always something callable, either
      the caller's own function or a closure returning a captured copy. */
  datatype Producer = Callback(id: nat) | Const(value: Value)

  /** The invocation options of one execution step (the `options` handed to
      `executeSql` and to `resolveMock`). */
  datatype Options = Options(
    query: Option<string>,
    preparedSql: Option<string>,
    procedure: Option<string>,
    params: Value)

  /** How a call into the store ended: normally, or with the TypeError that a
      property access on `undefined` throws. */
  datatype Completion = Returned | ThrewTypeError

  /** `mockResults.call(this, stepName, options)`. What a caller's function
      returns is not known here: `callbacks` supplies it. */
  function Invoke(p: Producer, stepName: string, options: Options,
                  callbacks: (nat, string, Options) -> Value): Value
  {
    match p
    case Callback(id) => callbacks(id, stepName, options)
    case Const(v) => v
  }

  /** What invoking `p` throws, if anything: a caller's function may throw
      (`throws` says with what), the closure around a captured value never does. */
  function Thrown(p: Producer, stepName: string, options: Options,
                  throws: (nat, string, Options) -> Option<Value>): Option<Value>
  {
    match p
    case Callback(id) => throws(id, stepName, options)
    case Const(_) => None
  }

  /** Reading `obj[name]` of a plain object: `undefined` when absent. */
  function Prop(fields: map<string, Value>, name: string): Value {
    if name in fields then fields[name] else Undefined
  }

  /** The field `name` after `_.merge(defaults, fields)` when `defaults` holds
      `default` there: an undefined source value is skipped, any other value
      (copied) replaces the default. */
  function Merged(default: Value, fields: map<string, Value>, name: string): Value {
    var v := Prop(fields, name);
    if v.Undefined? then default else v
  }

  /** The "ensure that mockResults is a function" step: a function is kept,
      any other value is captured by a closure that returns it. */
  function AsProducer(v: Value): Producer {
    if v.Fn? then Callback(v.id) else Const(v)
  }

  /** What calling the `mockResults` a caller wrote returns: the function's
      result when it is a function, the value itself otherwise. */
  function Produced(v: Value, stepName: string, options: Options,
                    callbacks: (nat, string, Options) -> Value): Value
  {
    if v.Fn? then callbacks(v.id, stepName, options) else v
  }
}

/** The foreign `quick_js` crate, as far as the binding touches it.
    Its interpreter is not part of this model: every outcome of running code
    is given by an `Interpreter` oracle, and whether a context can be created
    is given by a `Runtime`. The `TryFrom` conversions below are ASSUMED to
    succeed exactly on the matching tag; their source is not visible here. */
module QuickJsCrate {

  /** Rust's `i32`. */
  newtype i32 = x: int | -0x8000_0000 <= x < 0x8000_0000

  /** Rust's `f64`, carried as its bit pattern and never interpreted. */
  datatype F64 = F64(bits: bv64)

  /** `quick_js::JsValue`, restricted to the shapes the binding produces
      and inspects. */
  datatype JsValue =
    | Null
    | Bool(b: bool)
    | Int(i: i32)
    | Float(f: F64)
    | String(s: string)
    | Array(items: seq<JsValue>)
    | Object(props: map<string, JsValue>)

  /** The crate's three error types, each reduced to its `Display` text. */
  datatype ContextError = ContextError(text: string)
  datatype ExecutionError = ExecutionError(text: string)
  datatype ValueError = ValueError(text: string)

  /** Rust's `Result<T, E>` as the crate returns it. */
  datatype Outcome<+T, +E> = Ok(value: T) | Err(error: E)

  /** What a context is asked to run: `Context::eval` or `Context::call_function`. */
  datatype Request =
    | Eval(code: string)
    | Call(name: string, args: seq<JsValue>)

  /** The interpreter as an oracle: the outcome of a request depends on
      everything the context has run before it (its global state). */
  type Interpreter = (seq<Request>, Request) -> Outcome<JsValue, ExecutionError>

  /** The runtime a thread sees: whether `Context::new()` succeeds, and how
      the created context behaves. */
  datatype Runtime = Runtime(startup: Outcome<(), ContextError>, interpreter: Interpreter)

  /** `ValueError::UnexpectedType`, the only conversion failure on an
      already-built value. */
  const UnexpectedType: ValueError := ValueError("Could not convert - received unexpected type")

  function TryIntoBool(v: JsValue): Outcome<bool, ValueError>
  {
    if v.Bool? then Ok(v.b) else Err(UnexpectedType)
  }

  function TryIntoInt(v: JsValue): Outcome<i32, ValueError>
  {
    if v.Int? then Ok(v.i) else Err(UnexpectedType)
  }

  function TryIntoFloat(v: JsValue): Outcome<F64, ValueError>
  {
    if v.Float? then Ok(v.f) else Err(UnexpectedType)
  }

  function TryIntoString(v: JsValue): Outcome<string, ValueError>
  {
    if v.String? then Ok(v.s) else Err(UnexpectedType)
  }
}

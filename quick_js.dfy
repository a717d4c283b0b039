/** The QuickJS binding: the one implementation of the engine and value
    contracts. Every operation is a wrap or unwrap of the crate's own types,
    and every crate error is translated into one kind of `Errors.Error`. */
module QuickJs {
  import opened Errors
  import QJ = QuickJsCrate

  /** `Value(quick_js::JsValue)`. */
  datatype Value = Value(inner: QJ.JsValue)

  // ---------------------------------------------------------------------
  // Classification (`is_*`): total, and they only inspect the tag.

  predicate IsNull(v: Value) { v.inner.Null? }
  predicate IsBool(v: Value) { v.inner.Bool? }
  predicate IsInt(v: Value) { v.inner.Int? }
  predicate IsFloat(v: Value) { v.inner.Float? }
  predicate IsString(v: Value) { v.inner.String? }

  /** The names of the `is_*` predicates that hold of `v`. */
  datatype Kind = NullKind | BoolKind | IntKind | FloatKind | StringKind

  function Kinds(v: Value): set<Kind>
  {
    (if IsNull(v) then {NullKind} else {}) +
    (if IsBool(v) then {BoolKind} else {}) +
    (if IsInt(v) then {IntKind} else {}) +
    (if IsFloat(v) then {FloatKind} else {}) +
    (if IsString(v) then {StringKind} else {})
  }

  /** At most one `is_*` predicate holds of any value, and none holds of an
      array or an object. */
  lemma PredicatesExclusive(v: Value)
    ensures |Kinds(v)| <= 1
    ensures v.inner.Array? || v.inner.Object? ==> Kinds(v) == {}
  {
  }

  // ---------------------------------------------------------------------
  // Factories: total, one tag each.

  function Null(): (v: Value)
    ensures Kinds(v) == {NullKind}
  {
    Value(QJ.Null)
  }

  function FromBool(b: bool): (v: Value)
    ensures Kinds(v) == {BoolKind}
    ensures IntoBool(v) == Ok(b)
  {
    Value(QJ.Bool(b))
  }

  function FromInt(i: QJ.i32): (v: Value)
    ensures Kinds(v) == {IntKind}
    ensures IntoInt(v) == Ok(i)
  {
    Value(QJ.Int(i))
  }

  function FromFloat(f: QJ.F64): (v: Value)
    ensures Kinds(v) == {FloatKind}
    ensures IntoFloat(v) == Ok(f)
  {
    Value(QJ.Float(f))
  }

  function FromString(s: string): (v: Value)
    ensures Kinds(v) == {StringKind}
    ensures IntoString(v) == Ok(s)
  {
    Value(QJ.String(s))
  }

  /** `.map(|v| v.0).collect()`: the crate values inside `xs`, in order. */
  function Unwrap(xs: seq<Value>): (r: seq<QJ.JsValue>)
    ensures |r| == |xs|
    ensures forall i :: 0 <= i < |xs| ==> r[i] == xs[i].inner
  {
    if xs == [] then [] else [xs[0].inner] + Unwrap(xs[1..])
  }

  function FromArray(xs: seq<Value>): (v: Value)
    ensures Kinds(v) == {}
    ensures v.inner.Array? && |v.inner.items| == |xs|
    ensures forall i :: 0 <= i < |xs| ==> v.inner.items[i] == xs[i].inner
  {
    Value(QJ.Array(Unwrap(xs)))
  }

  /** The keys that occur in a sequence of entries. */
  ghost function KeysOf(ps: seq<(string, Value)>): set<string>
  {
    set i | 0 <= i < |ps| :: ps[i].0
  }

  /** `.map(|(k, v)| (k, v.0)).collect()` into the crate's object map: one
      entry per key that occurs, holding the value of some entry with that
      key. */
  function Collect(ps: seq<(string, Value)>): (m: map<string, QJ.JsValue>)
    ensures m.Keys == KeysOf(ps)
    ensures forall k :: k in m ==> exists i :: 0 <= i < |ps| && ps[i].0 == k && m[k] == ps[i].1.inner
  {
    if ps == [] then map[]
    else
      var init := ps[..|ps| - 1];
      var last := ps[|ps| - 1];
      assert KeysOf(ps) == KeysOf(init) + {last.0} by {
        forall k | k in KeysOf(ps) ensures k in KeysOf(init) + {last.0} {
          var i :| 0 <= i < |ps| && ps[i].0 == k;
          if i < |ps| - 1 { assert init[i] == ps[i]; }
        }
        forall k | k in KeysOf(init) ensures k in KeysOf(ps) {
          var i :| 0 <= i < |init| && init[i].0 == k;
          assert ps[i] == init[i];
        }
      }
      var m := Collect(init)[last.0 := last.1.inner];
      assert forall k :: k in m ==> exists i :: 0 <= i < |ps| && ps[i].0 == k && m[k] == ps[i].1.inner by {
        forall k | k in m ensures exists i :: 0 <= i < |ps| && ps[i].0 == k && m[k] == ps[i].1.inner {
          if k == last.0 {
            assert ps[|ps| - 1].0 == k;
          } else {
            var i :| 0 <= i < |init| && init[i].0 == k && Collect(init)[k] == init[i].1.inner;
            assert ps[i] == init[i];
          }
        }
      }
      m
  }

  function FromObject(ps: seq<(string, Value)>): (v: Value)
    ensures Kinds(v) == {}
    ensures v.inner.Object? && v.inner.props.Keys == KeysOf(ps)
    ensures forall k :: k in v.inner.props ==>
              exists i :: 0 <= i < |ps| && ps[i].0 == k && v.inner.props[k] == ps[i].1.inner
  {
    Value(QJ.Object(Collect(ps)))
  }

  // ---------------------------------------------------------------------
  // Error translation: one crate error type to one kind, text kept.

  function FromContextError(e: QJ.ContextError): (r: Error)
    ensures r.JsInitError? && r.msg == e.text
  {
    JsInitError(e.text)
  }

  function FromExecutionError(e: QJ.ExecutionError): (r: Error)
    ensures r.JsExecError? && r.msg == e.text
  {
    JsExecError(e.text)
  }

  function FromValueError(e: QJ.ValueError): (r: Error)
    ensures r.JsValueError? && r.msg == e.text
  {
    JsValueError(e.text)
  }

  /** Each crate error type lands in its own kind: errors from different
      crate types never meet. */
  lemma ErrorKindsDistinct(c: QJ.ContextError, x: QJ.ExecutionError, v: QJ.ValueError)
    ensures FromContextError(c) != FromExecutionError(x)
    ensures FromContextError(c) != FromValueError(v)
    ensures FromExecutionError(x) != FromValueError(v)
  {
  }

  // ---------------------------------------------------------------------
  // Conversions (`into_*`): fallible, and every failure is a value error.

  function IntoBool(v: Value): (r: Result<bool>)
    ensures r.Ok? <==> IsBool(v)
    ensures IsBool(v) ==> r == Ok(v.inner.b)
    ensures r.Err? ==> r.error == JsValueError(QJ.UnexpectedType.text)
  {
    match QJ.TryIntoBool(v.inner)
    case Ok(b) => Ok(b)
    case Err(e) => Err(FromValueError(e))
  }

  function IntoInt(v: Value): (r: Result<QJ.i32>)
    ensures r.Ok? <==> IsInt(v)
    ensures IsInt(v) ==> r == Ok(v.inner.i)
    ensures r.Err? ==> r.error == JsValueError(QJ.UnexpectedType.text)
  {
    match QJ.TryIntoInt(v.inner)
    case Ok(i) => Ok(i)
    case Err(e) => Err(FromValueError(e))
  }

  function IntoFloat(v: Value): (r: Result<QJ.F64>)
    ensures r.Ok? <==> IsFloat(v)
    ensures IsFloat(v) ==> r == Ok(v.inner.f)
    ensures r.Err? ==> r.error == JsValueError(QJ.UnexpectedType.text)
  {
    match QJ.TryIntoFloat(v.inner)
    case Ok(f) => Ok(f)
    case Err(e) => Err(FromValueError(e))
  }

  function IntoString(v: Value): (r: Result<string>)
    ensures r.Ok? <==> IsString(v)
    ensures IsString(v) ==> r == Ok(v.inner.s)
    ensures r.Err? ==> r.error == JsValueError(QJ.UnexpectedType.text)
  {
    match QJ.TryIntoString(v.inner)
    case Ok(s) => Ok(s)
    case Err(e) => Err(FromValueError(e))
  }

  /** `Ok(Value(...?))` around a crate call: the value is wrapped, an
      execution error becomes `JsExecError` with its text. */
  function WrapOutcome(o: QJ.Outcome<QJ.JsValue, QJ.ExecutionError>): (r: Result<Value>)
    ensures r.Ok? <==> o.Ok?
    ensures o.Ok? ==> r.value.inner == o.value
    ensures o.Err? ==> r.error.JsExecError? && r.error.msg == o.error.text
  {
    match o
    case Ok(v) => Ok(Value(v))
    case Err(e) => Err(FromExecutionError(e))
  }

  // ---------------------------------------------------------------------
  // The engine.

  /** `Engine(quick_js::Context)`. The context's hidden global state is
      represented by the requests it has run, oldest first; what a request
      yields is decided by the interpreter oracle from that history. */
  class Engine {
    const interpreter: QJ.Interpreter
    var history: seq<QJ.Request>

    constructor Wrap(interpreter: QJ.Interpreter)
      ensures this.interpreter == interpreter && history == []
    {
      this.interpreter := interpreter;
      history := [];
    }

    /** `Engine::new()`: creating the context may fail; a new engine has run
        nothing yet. */
    static method New(rt: QJ.Runtime) returns (r: Result<Engine>)
      ensures rt.startup.Err? ==> r == Err(FromContextError(rt.startup.error))
      ensures rt.startup.Ok? ==> r.Ok? && fresh(r.value)
      ensures r.Ok? ==> r.value.interpreter == rt.interpreter && r.value.history == []
    {
      if rt.startup.Err? {
        r := Err(FromContextError(rt.startup.error));
      } else {
        var engine := new Engine.Wrap(rt.interpreter);
        r := Ok(engine);
      }
    }

    /** `eval(code)`: runs `code` in the global scope. */
    method Eval(code: string) returns (r: Result<Value>)
      modifies this
      ensures history == old(history) + [QJ.Eval(code)]
      ensures r == WrapOutcome(interpreter(old(history), QJ.Eval(code)))
    {
      r := WrapOutcome(interpreter(history, QJ.Eval(code)));
      history := history + [QJ.Eval(code)];
    }

    /** `call_function(name, args)`: the arguments reach the crate unwrapped,
        in iterator order. */
    method CallFunction(name: string, args: seq<Value>) returns (r: Result<Value>)
      modifies this
      ensures history == old(history) + [QJ.Call(name, Unwrap(args))]
      ensures r == WrapOutcome(interpreter(old(history), QJ.Call(name, Unwrap(args))))
    {
      var request := QJ.Call(name, Unwrap(args));
      r := WrapOutcome(interpreter(history, request));
      history := history + [request];
    }
  }
}

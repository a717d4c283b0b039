# katex-rs engine layer, modelled in Dafny

katex-rs renders LaTeX to HTML by running the KaTeX JavaScript library
(with its mhchem extension) inside an embedded QuickJS engine. This project
models the layer between the Rust host and the engine:

- **The value and engine contracts and their QuickJS binding**
  (`src/js_engine.rs`, `src/js_engine/quick_js.rs`). The binding has a value
  type `Value` that wraps the crate's `JsValue`, with these operations:
  - total factories, each producing one tag;
  - total `is_*` predicates, of which at most one holds for any value;
  - fallible `into_*` conversions;
  - a translation of each of the crate's three error types into its own
    kind (`JsInitError`, `JsExecError`, `JsValueError`), keeping the display
    text.

  `QuickJs.Engine` is a class. Its hidden QuickJS context is represented by
  the requests the engine has run (`history`). What an `eval` or
  `call_function` returns is decided by an interpreter oracle, given that
  history and the new request.
- **The bootstrap** (`init_katex` in `src/lib.rs`). It creates an engine,
  then evaluates the KaTeX source, the mhchem source and the
  `renderToString` glue, in that order. It stops at the first error.
- **The per-thread cell `KATEX`**. The first render on a thread runs the
  bootstrap and stores its `Result` for good. A stored error is replayed on
  every later render and never retried.
  - `Katex.KatexCell` is the cell as a class.
  - `Katex.CellModel` is its abstract state: `Uninit`, `Ready(history)` or
    `Poisoned(error, bootLog)`.
  - `Katex.RenderStep` and `Katex.RenderAll` define what one render, and a
    sequence of renders, do to that state.
- **The render pipeline** (`render_inner`, `render_with_opts`, `render`).
  A render calls `renderToString` with exactly two arguments, the input and
  then the options. A call failure is passed through unchanged. Otherwise
  the result goes through `into_string`.

Modules: `Errors` (the crate's error type; src/error.rs is not part of this
model), `QuickJsCrate` (the foreign `quick_js` crate as an oracle),
`QuickJs`, `JsEngine` and `Katex`.

`JsEngine` binds the single backend: its `Engine` and `Value` are the QuickJS
types. The two trait contracts are stated on that one implementation.

Two behaviours of the code that are easy to misread:
- A failing bootstrap `eval` is cached as `JsExecError`, not as an init
  error. Only a failure to create the context gives `JsInitError`.
- `from_object` collects into the crate's object type, which is a map. The
  model makes no claim that insertion order is kept.

## Model

| member | source | states |
|---|---|---|
| `QuickJs.PredicatesExclusive` | src/js_engine/quick_js.rs:68-86 | at most one of `is_null`, `is_bool`, `is_int`, `is_float`, `is_string` holds of any value; none holds of an array or an object |
| `QuickJs.Null` | src/js_engine/quick_js.rs:32-34 | `null()` satisfies `is_null` and no other predicate |
| `QuickJs.FromBool` | src/js_engine/quick_js.rs:36-38 | `from_bool(b)` satisfies `is_bool` only, and `into_bool` gives back `b` |
| `QuickJs.FromInt` | src/js_engine/quick_js.rs:40-42 | `from_int(i)` satisfies `is_int` only, and `into_int` gives back `i` |
| `QuickJs.FromFloat` | src/js_engine/quick_js.rs:44-46 | `from_float(f)` satisfies `is_float` only, and `into_float` gives back `f` |
| `QuickJs.FromString` | src/js_engine/quick_js.rs:48-50 | `from_string(s)` satisfies `is_string` only, and `into_string` gives back `s` |
| `QuickJs.Unwrap` | src/js_engine/quick_js.rs:53 | unwrapping a sequence of values keeps its length and order: element `i` of the result is the crate value inside element `i` |
| `QuickJs.FromArray` | src/js_engine/quick_js.rs:52-55 | `from_array(xs)` is an array of the unwrapped elements of `xs`, same length and order, satisfying no `is_*` predicate |
| `QuickJs.Collect` | src/js_engine/quick_js.rs:58 | the collected map has exactly the keys occurring in the entries, and each key holds the unwrapped value of an entry with that key |
| `QuickJs.FromObject` | src/js_engine/quick_js.rs:57-60 | `from_object(ps)` is an object with an entry for every key in `ps` and no other, each holding the value of one of that key's entries, satisfying no `is_*` predicate |
| `QuickJs.FromContextError` | src/js_engine/quick_js.rs:105-109 | a context error becomes `JsInitError` carrying its display text |
| `QuickJs.FromExecutionError` | src/js_engine/quick_js.rs:111-115 | an execution error becomes `JsExecError` carrying its display text |
| `QuickJs.FromValueError` | src/js_engine/quick_js.rs:117-121 | a value error becomes `JsValueError` carrying its display text |
| `QuickJs.ErrorKindsDistinct` | src/js_engine/quick_js.rs:105-121 | errors translated from different crate error types never coincide: a context error, an execution error and a value error always land in three different kinds |
| `QuickJs.IntoBool` | src/js_engine/quick_js.rs:88-90 | `into_bool` succeeds exactly on a bool value and returns its payload; a failure is a `JsValueError` |
| `QuickJs.IntoInt` | src/js_engine/quick_js.rs:92-94 | `into_int` succeeds exactly on an int value and returns its payload; a failure is a `JsValueError` |
| `QuickJs.IntoFloat` | src/js_engine/quick_js.rs:96-98 | `into_float` succeeds exactly on a float value and returns its payload; a failure is a `JsValueError` |
| `QuickJs.IntoString` | src/js_engine/quick_js.rs:100-102 | `into_string` succeeds exactly on a string value and returns its text; a failure is a `JsValueError` |
| `QuickJs.WrapOutcome` | src/js_engine/quick_js.rs:20-22 | a crate result is wrapped as a `Value` on success; an execution error becomes `JsExecError` with its text |
| `QuickJs.Engine.New` | src/js_engine/quick_js.rs:16-18 | creating the engine fails with the context error translated to `JsInitError`, or yields a fresh engine that has run nothing |
| `QuickJs.Engine.Eval` | src/js_engine/quick_js.rs:20-22 | `eval(code)` appends exactly that eval to the engine's history; its result is the interpreter's outcome, wrapped or translated |
| `QuickJs.Engine.CallFunction` | src/js_engine/quick_js.rs:24-30 | `call_function` sends the unwrapped arguments in iterator order and appends exactly that call to the history; its result is the interpreter's outcome, wrapped or translated |
| `JsEngine.FactoriesRoundTrip` | src/js_engine.rs:23-65 | a value made by `from_bool`, `from_int`, `from_float` or `from_string` converts back to its input with the matching `into_*` |
| `JsEngine.MismatchIsValueError` | src/js_engine.rs:45-65 | converting a value to a type its tag does not hold fails, and always with a value error, never an init or exec error |
| `Katex.EvalInOrderStopsAtFirstFailure` | src/lib.rs:55-59 | evaluating sources in order runs a prefix of them: all of them exactly when every eval succeeds; otherwise it stops right after the first failing eval and reports that eval's error as `JsExecError` |
| `Katex.BootstrapRunsSourcesInOrder` | src/lib.rs:54-59 | if engine creation fails, nothing is evaluated and the error is `JsInitError`; otherwise the three sources run in order, stopping at the first failure, and success means all three ran |
| `Katex.InitKatex` | src/lib.rs:50-61 | `init_katex` has the bootstrap's outcome: its error, or `Ok` holding the freshly created engine that received the three evals |
| `Katex.RenderArgs` | src/lib.rs:75-77 | the call arguments are exactly two: the input as a string value, then the options value |
| `Katex.RenderRequest` | src/lib.rs:75-78 | a render calls `renderToString` with the input string, then the options value |
| `Katex.RenderResult` | src/lib.rs:78 | a call failure is returned as it is (`JsExecError`); a string result is returned; any other result gives a `JsValueError` |
| `Katex.RenderInner` | src/lib.rs:65-79 | `render_inner` appends exactly one `renderToString` request to the engine's history and returns that call's outcome through `into_string` |
| `Katex.PoisonIsPermanent` | src/lib.rs:84-87 | renders on a cell holding an error return that error every time, leave the cell unchanged and reach no engine |
| `Katex.ReadyStaysReady` | src/lib.rs:83-88 | a ready cell stays ready whatever the renders return, and each render appends exactly its own request, in order |
| `Katex.ReadyOutcomes` | src/lib.rs:83-88 | the `i`-th render on a ready engine returns the outcome of its request after the engine's earlier history and all earlier renders |
| `Katex.FailedBootstrapPoisonsOnce` | src/lib.rs:44-47 | if the bootstrap fails, the first render stores its error and every render on the thread returns it; the bootstrap is not retried |
| `Katex.SucceededBootstrapRunsOnce` | src/lib.rs:44-47 | if the bootstrap succeeds, the thread's engine has run the three sources exactly once, before every render's request |
| `Katex.FirstStepReady` | src/lib.rs:83-88 | after a successful bootstrap, the first render leaves the engine with the three sources and then its own request |
| `Katex.KatexCell.constructor` | src/lib.rs:44-47 | a thread's cell starts uninitialized |
| `Katex.KatexCell.RenderWithOpts` | src/lib.rs:82-89 | `render_with_opts` changes the cell's abstract state and returns exactly as `RenderStep` says: initialize on first use, replay a stored error, otherwise render on the stored engine |
| `Katex.KatexCell.Render` | src/lib.rs:93-95 | `render(input)` behaves as `render_with_opts(input, Opts::default())` |

## Left out

- The QuickJS interpreter and the text of the bundled KaTeX and mhchem scripts are foreign. An `Interpreter` oracle decides eval and call outcomes from the engine's request history, and `Bundle` holds the two script texts as parameters. The HTML that rendering produces is not modelled.
- The crate's `TryFrom` conversions are not visible. The model assumes they succeed exactly on the matching tag, failing with `ValueError::UnexpectedType`, whose text the model takes to be "Could not convert - received unexpected type". The payload round trips in `QuickJs.From*` and `JsEngine.FactoriesRoundTrip`, the exact success conditions of the `QuickJs.Into*` conversions (in particular that `into_float` rejects an `Int` value) and `JsEngine.MismatchIsValueError` rest on this assumption.
- QuickJs.FromObject: states the keys and that each value comes from an entry with that key. It says nothing about key order or which of several entries with one key wins, because the target type of `collect` belongs to the foreign crate.
- `f64` is kept as an uninterpreted 64-bit pattern. Float semantics are not modelled.
- The crate's other value shapes (`undefined`, dates, big integers) are not modelled. No factory produces them, and `into_string` rejects them like any non-string.
- Thread-local storage, `RefCell` borrow checking and the lifetime that ties a value to its engine are left out. `KatexCell` models one thread's cell; values are plain data.
- Concurrency across threads: each thread has its own cell, and the model covers one.
- `Opts`, its builder and `Opts::to_js_value` (src/opts.rs) are not part of this model. An `Opts` is seen only through the value it converts to. `Host.defaultOpts` stands for `Opts::default()`.
- `Context::new()`: whether it succeeds is a fixed property of the thread's `Runtime`. This is enough because a thread creates at most one engine.
- The build-time backend selection through `cfg_if` (src/js_engine.rs:68-76) is modelled only as `JsEngine` binding QuickJS. The build failure without the feature is not modelled.
- The crate's error types are reduced to their display text, so nothing is stated about whether two different crate errors can share a text.
- `Error::clone` when replaying a stored error is the identity on Dafny values.

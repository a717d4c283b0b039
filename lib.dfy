/** KaTeX rendering on top of the engine contract: the bootstrap that loads
    the bundled scripts into a fresh engine, the per-thread cell that keeps
    the bootstrap's `Result` for the thread's lifetime, and the render
    pipeline that calls the glue function. */
module Katex {
  import opened Errors
  import QJ = QuickJsCrate
  import QuickJs
  import JsEngine

  /** Rust's `Option`, for the boot record and the cell's slot. */
  datatype Option<+T> = None | Some(value: T)

  /** The glue definition, evaluated after the two bundled scripts. */
  const GlueSrc: string := "function renderToString(input, opts) { return katex.renderToString(input, opts); }"

  /** The global the glue defines and every render calls. */
  const RenderFn: string := "renderToString"

  /** The two bundled scripts (vendor/katex.min.js and
      vendor/contrib/mhchem.min.js); their text is not part of this model. */
  datatype Bundle = Bundle(katexSrc: string, mhchemSrc: string)

  /** What the bootstrap evaluates, in order. */
  function BootstrapSources(bundle: Bundle): seq<string>
  {
    [bundle.katexSrc, bundle.mhchemSrc, GlueSrc]
  }

  /** Render options, seen only through the value `Opts::to_js_value`
      builds from them. */
  datatype Opts = Opts(asJs: JsEngine.Value)

  /** What a thread runs against: the QuickJS runtime, the bundled scripts,
      and `Opts::default()`. */
  datatype Host = Host(runtime: QJ.Runtime, bundle: Bundle, defaultOpts: Opts)

  // ---------------------------------------------------------------------
  // Bootstrap (`init_katex`).

  /** The eval requests for `sources`, in order. */
  function Evals(sources: seq<string>): (r: seq<QJ.Request>)
    ensures |r| == |sources|
    ensures forall i :: 0 <= i < |sources| ==> r[i] == QJ.Eval(sources[i])
  {
    if sources == [] then [] else [QJ.Eval(sources[0])] + Evals(sources[1..])
  }

  /** What a bootstrap leaves behind: every request the engine received, and
      the error it stopped at, if any. */
  datatype Boot = Boot(log: seq<QJ.Request>, failure: Option<Error>)

  /** Evaluate `sources` one after another on an engine that has already run
      `history`, stopping at the first failure. */
  function EvalInOrder(interp: QJ.Interpreter, history: seq<QJ.Request>, sources: seq<string>): Boot
    decreases |sources|
  {
    if sources == [] then Boot(history, None)
    else
      var request := QJ.Eval(sources[0]);
      match interp(history, request)
      case Err(e) => Boot(history + [request], Some(QuickJs.FromExecutionError(e)))
      case Ok(_) => EvalInOrder(interp, history + [request], sources[1..])
  }

  /** The outcome of evaluating `sources[j]` after `history` and the sources
      before it. */
  function OutcomeAt(interp: QJ.Interpreter, history: seq<QJ.Request>, sources: seq<string>, j: nat)
    : QJ.Outcome<QJ.JsValue, QJ.ExecutionError>
    requires j < |sources|
  {
    interp(history + Evals(sources[..j]), QJ.Eval(sources[j]))
  }

  /** The first `n` sources all evaluate successfully. */
  ghost predicate FirstSucceed(interp: QJ.Interpreter, history: seq<QJ.Request>, sources: seq<string>, n: nat)
    requires n <= |sources|
  {
    forall j :: 0 <= j < n ==> OutcomeAt(interp, history, sources, j).Ok?
  }

  lemma EvalsShift(history: seq<QJ.Request>, sources: seq<string>, j: nat)
    requires j < |sources|
    ensures (history + [QJ.Eval(sources[0])]) + Evals(sources[1..][..j]) == history + Evals(sources[..j + 1])
  {
    var a, b := Evals(sources[..j + 1]), [QJ.Eval(sources[0])] + Evals(sources[1..][..j]);
    assert |a| == |b|;
    forall i | 0 <= i < |a| ensures a[i] == b[i] {
      if i > 0 { assert b[i] == Evals(sources[1..][..j])[i - 1]; }
    }
    assert a == b;
  }

  lemma OutcomeShift(interp: QJ.Interpreter, history: seq<QJ.Request>, sources: seq<string>, j: nat)
    requires j + 1 < |sources|
    ensures OutcomeAt(interp, history + [QJ.Eval(sources[0])], sources[1..], j) == OutcomeAt(interp, history, sources, j + 1)
  {
    EvalsShift(history, sources, j);
    assert sources[1..][j] == sources[j + 1];
  }

  /** `b` ran a prefix of `sources` after `history`: all of them, each
      succeeding, or up to and including the first that failed, whose error
      it reports as `JsExecError`. */
  ghost predicate StoppedAtFirstFailure(interp: QJ.Interpreter, history: seq<QJ.Request>, sources: seq<string>, b: Boot)
  {
    var n := |b.log| - |history|;
    && 0 <= n <= |sources|
    && b.log == history + Evals(sources[..n])
    && (b.failure.None? ==> n == |sources| && FirstSucceed(interp, history, sources, n))
    && (b.failure.Some? ==>
          && 0 < n
          && FirstSucceed(interp, history, sources, n - 1)
          && OutcomeAt(interp, history, sources, n - 1).Err?
          && b.failure.value == JsExecError(OutcomeAt(interp, history, sources, n - 1).error.text))
  }

  /** Evaluating in order runs a prefix of the sources; it runs them all
      exactly when each succeeds, and otherwise stops right after the first
      failure. */
  lemma {:induction false} EvalInOrderStopsAtFirstFailure(interp: QJ.Interpreter, history: seq<QJ.Request>,
                                                          sources: seq<string>)
    ensures StoppedAtFirstFailure(interp, history, sources, EvalInOrder(interp, history, sources))
    decreases |sources|
  {
    if sources == [] {
      assert sources[..0] == [];
    } else {
      var request := QJ.Eval(sources[0]);
      assert history + Evals(sources[..0]) == history by { assert sources[..0] == []; }
      assert OutcomeAt(interp, history, sources, 0) == interp(history, request);
      if interp(history, request).Err? {
        assert Evals(sources[..1]) == [request];
      } else {
        var next := history + [request];
        var b := EvalInOrder(interp, next, sources[1..]);
        assert b == EvalInOrder(interp, history, sources);
        EvalInOrderStopsAtFirstFailure(interp, next, sources[1..]);
        ShiftStopped(interp, history, sources, b);
      }
    }
  }

  /** Moving the first, successful, source from `sources` into the history
      preserves `StoppedAtFirstFailure`. */
  lemma ShiftStopped(interp: QJ.Interpreter, history: seq<QJ.Request>, sources: seq<string>, b: Boot)
    requires sources != []
    requires interp(history, QJ.Eval(sources[0])).Ok?
    requires StoppedAtFirstFailure(interp, history + [QJ.Eval(sources[0])], sources[1..], b)
    ensures StoppedAtFirstFailure(interp, history, sources, b)
  {
    var m := |b.log| - |history| - 1;
    EvalsShift(history, sources, m);
    if b.failure.None? {
      ShiftFirstSucceed(interp, history, sources, m);
    } else {
      ShiftFirstSucceed(interp, history, sources, m - 1);
      OutcomeShift(interp, history, sources, m - 1);
    }
  }

  lemma ShiftFirstSucceed(interp: QJ.Interpreter, history: seq<QJ.Request>, sources: seq<string>, k: nat)
    requires k < |sources|
    requires interp(history, QJ.Eval(sources[0])).Ok?
    requires FirstSucceed(interp, history + [QJ.Eval(sources[0])], sources[1..], k)
    ensures FirstSucceed(interp, history, sources, k + 1)
  {
    assert history + Evals(sources[..0]) == history by { assert sources[..0] == []; }
    forall j | 0 <= j < k + 1 ensures OutcomeAt(interp, history, sources, j).Ok? {
      if j > 0 {
        OutcomeShift(interp, history, sources, j - 1);
      }
    }
  }

  /** The whole of `init_katex`'s effect: creating the engine may fail with
      `JsInitError`; otherwise the three sources are evaluated in order,
      stopping at the first failure. */
  function Bootstrap(rt: QJ.Runtime, bundle: Bundle): Boot
  {
    if rt.startup.Err? then Boot([], Some(QuickJs.FromContextError(rt.startup.error)))
    else EvalInOrder(rt.interpreter, [], BootstrapSources(bundle))
  }

  /** Bootstrap evaluates a prefix of KaTeX, mhchem, glue, in that order,
      stopping at the first failure; it succeeds only after all three; and
      when the engine cannot be created it evaluates nothing. */
  lemma BootstrapRunsSourcesInOrder(rt: QJ.Runtime, bundle: Bundle)
    ensures var b := Bootstrap(rt, bundle);
            && (rt.startup.Err? ==> b == Boot([], Some(JsInitError(rt.startup.error.text))))
            && (rt.startup.Ok? ==> StoppedAtFirstFailure(rt.interpreter, [], BootstrapSources(bundle), b))
            && (b.failure.None? ==> b.log == [QJ.Eval(bundle.katexSrc), QJ.Eval(bundle.mhchemSrc), QJ.Eval(GlueSrc)])
  {
    if rt.startup.Ok? {
      BootLogOnSuccess(rt, bundle);
    }
  }

  /** Helper for `BootstrapRunsSourcesInOrder`: the general ordering fact
      instantiated at the three bootstrap sources. */
  lemma BootLogOnSuccess(rt: QJ.Runtime, bundle: Bundle)
    ensures rt.startup.Ok? ==> StoppedAtFirstFailure(rt.interpreter, [], BootstrapSources(bundle), Bootstrap(rt, bundle))
    ensures Bootstrap(rt, bundle).failure.None? ==> Bootstrap(rt, bundle).log == Evals(BootstrapSources(bundle))
  {
    var sources := BootstrapSources(bundle);
    if rt.startup.Ok? {
      EvalInOrderStopsAtFirstFailure(rt.interpreter, [], sources);
      assert sources[..3] == sources;
    }
  }

  /** `init_katex`: create an engine, then evaluate the KaTeX source, the
      mhchem source and the glue, returning the first error. `log` is what
      the created engine received, kept even when the engine is dropped. */
  method InitKatex(rt: QJ.Runtime, bundle: Bundle) returns (r: Result<JsEngine.Engine>, ghost log: seq<QJ.Request>)
    ensures Bootstrap(rt, bundle) == Boot(log, if r.Err? then Some(r.error) else None)
    ensures r.Ok? ==> fresh(r.value) && r.value.interpreter == rt.interpreter && r.value.history == log
  {
    var created := QuickJs.Engine.New(rt);
    if created.Err? {
      return Err(created.error), [];
    }
    var engine := created.value;
    var interp := rt.interpreter;
    var sources := BootstrapSources(bundle);
    ghost var e0 := QJ.Eval(bundle.katexSrc);
    ghost var e1 := QJ.Eval(bundle.mhchemSrc);
    ghost var e2 := QJ.Eval(GlueSrc);
    assert sources[1..] == [bundle.mhchemSrc, GlueSrc];
    assert sources[1..][1..] == [GlueSrc];
    assert sources[1..][1..][1..] == [];

    assert Bootstrap(rt, bundle) == EvalInOrder(interp, [], sources);
    var v := engine.Eval(bundle.katexSrc);
    assert engine.history == [e0];
    if v.Err? {
      return Err(v.error), engine.history;
    }
    assert [] + [e0] == [e0];
    assert Bootstrap(rt, bundle) == EvalInOrder(interp, [e0], sources[1..]);
    v := engine.Eval(bundle.mhchemSrc);
    assert engine.history == [e0, e1];
    if v.Err? {
      return Err(v.error), engine.history;
    }
    assert Bootstrap(rt, bundle) == EvalInOrder(interp, [e0, e1], sources[1..][1..]);
    v := engine.Eval(GlueSrc);
    assert engine.history == [e0, e1, e2];
    if v.Err? {
      return Err(v.error), engine.history;
    }
    assert Bootstrap(rt, bundle) == EvalInOrder(interp, [e0, e1, e2], sources[1..][1..][1..]);
    return Ok(engine), engine.history;
  }

  // ---------------------------------------------------------------------
  // Render pipeline (`render_inner`).

  /** The arguments `render_inner` passes: the input as a string value, then
      the options value. */
  function RenderArgs(input: string, opts: Opts): (args: seq<JsEngine.Value>)
    ensures |args| == 2
    ensures QuickJs.IsString(args[0]) && QuickJs.IntoString(args[0]) == Ok(input)
    ensures args[1] == opts.asJs
  {
    [QuickJs.FromString(input), opts.asJs]
  }

  /** The request a render sends to the engine. */
  function RenderRequest(input: string, opts: Opts): (r: QJ.Request)
    ensures r == QJ.Call("renderToString", [QJ.String(input), opts.asJs.inner])
  {
    var args := QuickJs.Unwrap(RenderArgs(input, opts));
    assert args == [QJ.String(input), opts.asJs.inner];
    QJ.Call(RenderFn, args)
  }

  /** `call_function(..)?.into_string()`: a call failure comes back as it
      is; a result that is not a string becomes a value error. */
  function RenderResult(o: QJ.Outcome<QJ.JsValue, QJ.ExecutionError>): (r: Result<string>)
    ensures o.Err? ==> r == Err(JsExecError(o.error.text))
    ensures o.Ok? && o.value.String? ==> r == Ok(o.value.s)
    ensures o.Ok? && !o.value.String? ==> r.Err? && r.error.JsValueError?
  {
    match QuickJs.WrapOutcome(o)
    case Err(e) => Err(e)
    case Ok(v) => QuickJs.IntoString(v)
  }

  /** `render_inner`: one call of `renderToString` on the engine. */
  method RenderInner(engine: JsEngine.Engine, input: string, opts: Opts) returns (r: Result<string>)
    modifies engine
    ensures engine.history == old(engine.history) + [RenderRequest(input, opts)]
    ensures r == RenderResult(engine.interpreter(old(engine.history), RenderRequest(input, opts)))
  {
    var inputValue := QuickJs.FromString(input);
    var optsValue := opts.asJs;
    var result := engine.CallFunction(RenderFn, [inputValue, optsValue]);
    if result.Err? {
      r := Err(result.error);
    } else {
      r := QuickJs.IntoString(result.value);
    }
  }

  // ---------------------------------------------------------------------
  // The per-thread cell, abstractly.

  /** The thread's cell: not yet touched, holding a bootstrapped engine
      (given by what it has run), or holding the bootstrap's error (with what
      the dropped engine had run). */
  datatype CellModel =
    | Uninit
    | Ready(history: seq<QJ.Request>)
    | Poisoned(error: Error, bootLog: seq<QJ.Request>)

  datatype Step = Step(next: CellModel, out: Result<string>)

  /** One `render_with_opts` on a thread whose cell is `c`. */
  function RenderStep(host: Host, c: CellModel, input: string, opts: Opts): Step
  {
    match c
    case Poisoned(e, _) => Step(c, Err(e))
    case Ready(h) =>
      var request := RenderRequest(input, opts);
      Step(Ready(h + [request]), RenderResult(host.runtime.interpreter(h, request)))
    case Uninit =>
      var b := Bootstrap(host.runtime, host.bundle);
      if b.failure.Some? then Step(Poisoned(b.failure.value, b.log), Err(b.failure.value))
      else
        var request := RenderRequest(input, opts);
        Step(Ready(b.log + [request]), RenderResult(host.runtime.interpreter(b.log, request)))
  }

  datatype Run = Run(next: CellModel, outs: seq<Result<string>>)

  /** Successive renders on one thread, each with its own input and options. */
  function RenderAll(host: Host, c: CellModel, calls: seq<(string, Opts)>): Run
    decreases |calls|
  {
    if calls == [] then Run(c, [])
    else
      var s := RenderStep(host, c, calls[0].0, calls[0].1);
      var rest := RenderAll(host, s.next, calls[1..]);
      Run(rest.next, [s.out] + rest.outs)
  }

  /** The requests a sequence of renders sends. */
  function RenderRequests(calls: seq<(string, Opts)>): (r: seq<QJ.Request>)
    ensures |r| == |calls|
    ensures forall i :: 0 <= i < |calls| ==> r[i] == RenderRequest(calls[i].0, calls[i].1)
  {
    if calls == [] then [] else [RenderRequest(calls[0].0, calls[0].1)] + RenderRequests(calls[1..])
  }

  /** A poisoned cell stays poisoned: every later render returns the cached
      error, and nothing more reaches any engine. */
  lemma {:induction false} PoisonIsPermanent(host: Host, e: Error, bootLog: seq<QJ.Request>, calls: seq<(string, Opts)>)
    ensures var run := RenderAll(host, Poisoned(e, bootLog), calls);
            && run.next == Poisoned(e, bootLog)
            && |run.outs| == |calls|
            && forall i :: 0 <= i < |calls| ==> run.outs[i] == Err(e)
  {
    if calls != [] {
      PoisonIsPermanent(host, e, bootLog, calls[1..]);
    }
  }

  lemma RenderRequestsShift(h: seq<QJ.Request>, calls: seq<(string, Opts)>, i: nat)
    requires 0 < i <= |calls|
    ensures (h + [RenderRequest(calls[0].0, calls[0].1)]) + RenderRequests(calls[1..][..i - 1])
            == h + RenderRequests(calls[..i])
  {
    var a, b := RenderRequests(calls[..i]), [RenderRequest(calls[0].0, calls[0].1)] + RenderRequests(calls[1..][..i - 1]);
    assert |a| == |b|;
    forall k | 0 <= k < |a| ensures a[k] == b[k] {
      if k > 0 { assert b[k] == RenderRequests(calls[1..][..i - 1])[k - 1]; }
    }
    assert a == b;
  }

  /** The outcome of the `i`-th of `calls` on an engine that had run `h`
      before them. */
  function ReadyOutcome(host: Host, h: seq<QJ.Request>, calls: seq<(string, Opts)>, i: nat): Result<string>
    requires i < |calls|
  {
    RenderResult(host.runtime.interpreter(h + RenderRequests(calls[..i]), RenderRequest(calls[i].0, calls[i].1)))
  }

  /** One render on a ready cell. */
  lemma RenderAllReady(host: Host, h: seq<QJ.Request>, calls: seq<(string, Opts)>)
    requires calls != []
    ensures var request := RenderRequest(calls[0].0, calls[0].1);
            var rest := RenderAll(host, Ready(h + [request]), calls[1..]);
            RenderAll(host, Ready(h), calls)
              == Run(rest.next, [RenderResult(host.runtime.interpreter(h, request))] + rest.outs)
  {
  }

  /** A ready engine stays ready, whatever the renders return, and each
      render appends exactly its own request, in order. */
  lemma {:induction false} ReadyStaysReady(host: Host, h: seq<QJ.Request>, calls: seq<(string, Opts)>)
    ensures RenderAll(host, Ready(h), calls).next == Ready(h + RenderRequests(calls))
    ensures |RenderAll(host, Ready(h), calls).outs| == |calls|
    decreases |calls|
  {
    if calls == [] {
      assert RenderRequests(calls) == [];
    } else {
      var request := RenderRequest(calls[0].0, calls[0].1);
      ReadyStaysReady(host, h + [request], calls[1..]);
      RenderAllReady(host, h, calls);
      RenderRequestsShift(h, calls, |calls|);
      assert calls[..|calls|] == calls && calls[1..][..|calls| - 1] == calls[1..];
    }
  }

  /** The `i`-th of successive renders on a ready engine answers what the
      interpreter gives for its request after the bootstrap's and all earlier
      renders' requests. */
  lemma {:induction false} ReadyOutcomes(host: Host, h: seq<QJ.Request>, calls: seq<(string, Opts)>, i: nat)
    requires i < |calls|
    ensures i < |RenderAll(host, Ready(h), calls).outs|
            && RenderAll(host, Ready(h), calls).outs[i] == ReadyOutcome(host, h, calls, i)
    decreases i
  {
    ReadyStaysReady(host, h, calls);
    RenderAllReady(host, h, calls);
    var request := RenderRequest(calls[0].0, calls[0].1);
    if i == 0 {
      assert h + RenderRequests(calls[..0]) == h by { assert calls[..0] == []; }
    } else {
      ReadyStaysReady(host, h + [request], calls[1..]);
      ReadyOutcomes(host, h + [request], calls[1..], i - 1);
      RenderRequestsShift(h, calls, i);
      assert calls[1..][i - 1] == calls[i];
    }
  }

  /** The first render on an untouched cell. */
  lemma FirstRender(host: Host, calls: seq<(string, Opts)>)
    requires calls != []
    ensures var first := RenderStep(host, Uninit, calls[0].0, calls[0].1);
            var rest := RenderAll(host, first.next, calls[1..]);
            RenderAll(host, Uninit, calls) == Run(rest.next, [first.out] + rest.outs)
  {
  }

  /** When the bootstrap fails, the first render poisons the cell with its
      error, and every render on the thread returns that error. */
  lemma FailedBootstrapPoisonsOnce(host: Host, calls: seq<(string, Opts)>)
    requires calls != []
    requires Bootstrap(host.runtime, host.bundle).failure.Some?
    ensures var b := Bootstrap(host.runtime, host.bundle);
            var run := RenderAll(host, Uninit, calls);
            && run.next == Poisoned(b.failure.value, b.log)
            && |run.outs| == |calls|
            && forall i :: 0 <= i < |calls| ==> run.outs[i] == Err(b.failure.value)
  {
    var b := Bootstrap(host.runtime, host.bundle);
    FirstRender(host, calls);
    assert RenderStep(host, Uninit, calls[0].0, calls[0].1) == Step(Poisoned(b.failure.value, b.log), Err(b.failure.value));
    PoisonIsPermanent(host, b.failure.value, b.log, calls[1..]);
  }

  /** When the bootstrap succeeds, the engine has run the three sources
      exactly once, before every render's request, and stays ready. */
  lemma SucceededBootstrapRunsOnce(host: Host, calls: seq<(string, Opts)>)
    requires calls != []
    requires Bootstrap(host.runtime, host.bundle).failure.None?
    ensures var run := RenderAll(host, Uninit, calls);
            && run.next == Ready(Evals(BootstrapSources(host.bundle)) + RenderRequests(calls))
            && |run.outs| == |calls|
  {
    var request := RenderRequest(calls[0].0, calls[0].1);
    var log := Evals(BootstrapSources(host.bundle));
    FirstRender(host, calls);
    FirstStepReady(host, calls[0].0, calls[0].1);
    ReadyStaysReady(host, log + [request], calls[1..]);
    RenderRequestsShift(log, calls, |calls|);
    assert calls[..|calls|] == calls && calls[1..][..|calls| - 1] == calls[1..];
  }

  /** After a successful bootstrap, the first render leaves the engine
      ready, having run the three sources and then its own request. */
  lemma FirstStepReady(host: Host, input: string, opts: Opts)
    requires Bootstrap(host.runtime, host.bundle).failure.None?
    ensures RenderStep(host, Uninit, input, opts).next
            == Ready(Evals(BootstrapSources(host.bundle)) + [RenderRequest(input, opts)])
  {
    BootLogOnSuccess(host.runtime, host.bundle);
  }

  // ---------------------------------------------------------------------
  // The per-thread cell, concretely (`KATEX`).

  /** One thread's `KATEX`: empty until the first render, then the cached
      `Result` of `init_katex` for the rest of the thread's life. */
  class KatexCell {
    const host: Host
    var slot: Option<Result<JsEngine.Engine>>
    ghost var bootLog: seq<QJ.Request>

    ghost function Engines(): set<object>
      reads this
    {
      if slot.Some? && slot.value.Ok? then {slot.value.value} else {}
    }

    ghost predicate Valid()
      reads this, Engines()
    {
      slot.Some? && slot.value.Ok? ==> slot.value.value.interpreter == host.runtime.interpreter
    }

    ghost function Model(): CellModel
      reads this, Engines()
    {
      match slot
      case None => Uninit
      case Some(Ok(engine)) => Ready(engine.history)
      case Some(Err(e)) => Poisoned(e, bootLog)
    }

    constructor(host: Host)
      ensures this.host == host && Valid() && Model() == Uninit
    {
      this.host := host;
      slot := None;
      bootLog := [];
    }

    /** `render_with_opts`: initialize the cell on first use, replay a cached
        error, otherwise render on the cached engine. */
    method RenderWithOpts(input: string, opts: Opts) returns (r: Result<string>)
      requires Valid()
      modifies this, Engines()
      ensures Valid()
      ensures Step(Model(), r) == RenderStep(host, old(Model()), input, opts)
    {
      if slot.None? {
        var init, log := InitKatex(host.runtime, host.bundle);
        slot := Some(init);
        bootLog := log;
      }
      if slot.value.Err? {
        r := Err(slot.value.error);
      } else {
        r := RenderInner(slot.value.value, input, opts);
      }
    }

    /** `render`: `render_with_opts` with the default options. */
    method Render(input: string) returns (r: Result<string>)
      requires Valid()
      modifies this, Engines()
      ensures Valid()
      ensures Step(Model(), r) == RenderStep(host, old(Model()), input, host.defaultOpts)
    {
      r := RenderWithOpts(input, host.defaultOpts);
    }
  }
}

/**
 * `WSGIApplication.handle_request`: a Python generator that the worker's event
 * loop resumes until it stops. Each resumption runs the body from one `yield`
 * to the next; the model records, in order, every call the body makes on its
 * collaborators (`request.wsgi_environ()`, `response.foce_close()`, the
 * application callable) and every value it yields.
 *
 * What `request.wsgi_environ()` returns depends on how much of the request has
 * arrived, so it is an input of each resumption: `environNow` is the value the
 * call returns if the body makes it during that resumption.
 */
module WsgiRequest {
  import opened Wrappers
  import opened Pulsar

  /** The two flags the environ reports to the application. */
  datatype Flags = Flags(multithread: bool, multiprocess: bool)

  /**
   * `mt` and `mp` in `handle_request`: a thread-pool (resp. multi-process)
   * server with more than one worker. At most one holds, none for one worker.
   */
  function ConcurrencyFlags(concurrency: string, workers: int): (f: Flags)
    ensures !(f.multithread && f.multiprocess)
    ensures workers <= 1 ==> !f.multithread && !f.multiprocess
    ensures f.multithread ==> concurrency == "thread"
    ensures f.multiprocess ==> concurrency == "process"
    ensures workers > 1 && concurrency == "thread" ==> f.multithread
    ensures workers > 1 && concurrency == "process" ==> f.multiprocess
  {
    Flags(concurrency == "thread" && workers > 1, concurrency == "process" && workers > 1)
  }

  /** What the body reads from `worker` once it has an environ. */
  datatype Settings = Settings(concurrency: string, workers: int, worker: Worker, app: Environ -> Body)

  function SettingsOf(w: Worker): Settings
    reads w.cfg
  {
    Settings(w.cfg.concurrency, w.cfg.workers, w, w.appHandler)
  }

  /** Python's truth value of what `wsgi_environ()` returned: `None` and `{}` are false. */
  predicate EnvironTruthy(environ: Option<Environ>)
  {
    environ.Some? && |environ.value| > 0
  }

  /** `environ.update({...})` with the worker and the two concurrency flags. */
  function Annotate(environ: Environ, s: Settings): (e: Environ)
    ensures Annotated(e, s.worker, ConcurrencyFlags(s.concurrency, s.workers))
    ensures e.Keys == environ.Keys + {"pulsar.worker", "wsgi.multithread", "wsgi.multiprocess"}
    ensures forall k :: (k in environ && k !in {"pulsar.worker", "wsgi.multithread", "wsgi.multiprocess"}) ==> e[k] == environ[k]
  {
    var f := ConcurrencyFlags(s.concurrency, s.workers);
    environ["pulsar.worker" := WorkerRef(s.worker)]
           ["wsgi.multithread" := Flag(f.multithread)]
           ["wsgi.multiprocess" := Flag(f.multiprocess)]
  }

  /** The environ carries the worker `w` and the flags `f`. */
  ghost predicate Annotated(e: Environ, w: Worker, f: Flags)
  {
    && "pulsar.worker" in e && e["pulsar.worker"] == WorkerRef(w)
    && "wsgi.multithread" in e && e["wsgi.multithread"] == Flag(f.multithread)
    && "wsgi.multiprocess" in e && e["wsgi.multiprocess"] == Flag(f.multiprocess)
  }

  /** The values the generator yields: `request.on_headers`, `response.write(data)`, `response`. */
  datatype Yielded = OnHeaders | WriteResult(data: Body) | ResponseObject

  /** One observable step of the body, in the order the body takes them. */
  datatype Effect =
    | WsgiEnvironCall
    | ForceClose
    | AppCall(environ: Environ)
    | Yield(value: Yielded)

  /** The exception the body can raise: `environ.update` on a `None` environ. */
  datatype PyError = AttributeError

  /** What one `next()` on the generator gives back. */
  datatype Resumed = Produced(value: Yielded) | StopIteration | Raised(error: PyError)

  /** Where the body is suspended (or that it has finished). */
  datatype Stage = Created | AwaitingHeaders | DataWritten | ResponseYielded | Exhausted | Failed

  /**
   * The generator's frame: its resume point, its `environ` local, the flags
   * `mt` and `mp` once computed from `worker.cfg`, and the effects so far.
   */
  datatype Frame = Frame(stage: Stage, environ: Option<Environ>, flags: Option<Flags>, effects: seq<Effect>)

  function Initial(): Frame
  {
    Frame(Created, None, None, [])
  }

  /** Lines 58-68: read the flags, annotate the environ, call the application once, yield the write. */
  function Respond(effects: seq<Effect>, environ: Environ, s: Settings): (Frame, Resumed)
  {
    var e := Annotate(environ, s);
    (Frame(DataWritten, Some(e), Some(ConcurrencyFlags(s.concurrency, s.workers)), effects + Answer(s.app, e)),
     Produced(WriteResult(s.app(e))))
  }

  /** One `next()`: run the body from its resume point to the next `yield`, return or raise. */
  function Resume(f: Frame, s: Settings, environNow: Option<Environ>): (Frame, Resumed)
  {
    match f.stage
    case Created =>
      var effects := f.effects + [WsgiEnvironCall];
      if EnvironTruthy(environNow) then Respond(effects, environNow.value, s)
      else (Frame(AwaitingHeaders, environNow, None, effects + [Yield(OnHeaders)]), Produced(OnHeaders))
    case AwaitingHeaders =>
      var effects := f.effects + [WsgiEnvironCall];
      if environNow.None? then (Frame(Failed, None, None, effects), Raised(AttributeError))
      else Respond(effects, environNow.value, s)
    case DataWritten =>
      (f.(stage := ResponseYielded, effects := f.effects + [Yield(ResponseObject)]), Produced(ResponseObject))
    case ResponseYielded =>
      (f.(stage := Exhausted), StopIteration)
    case Exhausted =>
      (f, StopIteration)
    case Failed =>
      (f, StopIteration)
  }

  /** Resume the generator once per element of `answers`, each being what `wsgi_environ()` returns then. */
  function Run(f: Frame, s: Settings, answers: seq<Option<Environ>>): Frame
    decreases |answers|
  {
    if answers == [] then f else Run(Resume(f, s, answers[0]).0, s, answers[1..])
  }

  /**
   * The body read top to bottom when the first two calls of `wsgi_environ()`
   * return `first` and `second`: the complete list of its effects.
   */
  function BodyTrace(s: Settings, first: Option<Environ>, second: Option<Environ>): seq<Effect>
  {
    if EnvironTruthy(first) then Completed(s.app, false, Annotate(first.value, s), true)
    else if second.None? then Retry()
    else Completed(s.app, true, Annotate(second.value, s), true)
  }

  /** The opening when the first environ was empty: call, wait for the headers, call again. */
  function Retry(): seq<Effect>
  {
    [WsgiEnvironCall, Yield(OnHeaders), WsgiEnvironCall]
  }

  /** Lines 54-57: one call of `wsgi_environ()`, or a wait on the headers and a second call. */
  function Opening(retried: bool): seq<Effect>
  {
    if retried then Retry() else [WsgiEnvironCall]
  }

  /** Lines 64-68 once the environ `e` is annotated. */
  function Answer(app: Environ -> Body, e: Environ): seq<Effect>
  {
    [ForceClose, AppCall(e), Yield(WriteResult(app(e)))]
  }

  /** Line 70, once it has been reached. */
  function Closing(responded: bool): seq<Effect>
  {
    if responded then [Yield(ResponseObject)] else []
  }

  /** The effects once the application has been called with `e`. */
  function Completed(app: Environ -> Body, retried: bool, e: Environ, responded: bool): seq<Effect>
  {
    Opening(retried) + Answer(app, e) + Closing(responded)
  }

  /**
   * Every frame the generator of worker `w`, with application `app`, can be
   * in from `Initial()`. Once the environ is annotated it agrees with the
   * flags the frame computed then, whatever the worker's settings are now;
   * those flags, like every result of `ConcurrencyFlags`, are never both true.
   */
  ghost predicate Reachable(w: Worker, app: Environ -> Body, f: Frame)
  {
    match f.stage
    case Created => f.effects == []
    case AwaitingHeaders => f.effects == [WsgiEnvironCall, Yield(OnHeaders)]
    case Failed => f.effects == Retry()
    case DataWritten =>
      && f.environ.Some? && f.flags.Some? && Annotated(f.environ.value, w, f.flags.value)
      && !(f.flags.value.multithread && f.flags.value.multiprocess)
      && exists retried :: f.effects == Completed(app, retried, f.environ.value, false)
    case _ =>
      && f.environ.Some? && f.flags.Some? && Annotated(f.environ.value, w, f.flags.value)
      && !(f.flags.value.multithread && f.flags.value.multiprocess)
      && exists retried :: f.effects == Completed(app, retried, f.environ.value, true)
  }

  // ---- Counting the effects ----

  /** The effects that are counted. */
  datatype Kind = EnvironCallKind | AppCallKind | OtherKind

  function KindOf(e: Effect): Kind
  {
    match e
    case WsgiEnvironCall => EnvironCallKind
    case AppCall(_) => AppCallKind
    case _ => OtherKind
  }

  function Count(effects: seq<Effect>, k: Kind): nat
  {
    if effects == [] then 0 else (if KindOf(effects[0]) == k then 1 else 0) + Count(effects[1..], k)
  }

  /** Calls of `request.wsgi_environ()` among the effects. */
  function EnvironCalls(effects: seq<Effect>): nat
  {
    Count(effects, EnvironCallKind)
  }

  /** Calls of the application callable among the effects. */
  function AppCalls(effects: seq<Effect>): nat
  {
    Count(effects, AppCallKind)
  }

  /** The values yielded, in order. */
  function Yields(effects: seq<Effect>): seq<Yielded>
  {
    if effects == [] then [] else YieldedBy(effects[0]) + Yields(effects[1..])
  }

  function YieldedBy(e: Effect): seq<Yielded>
  {
    if e.Yield? then [e.value] else []
  }

  lemma {:induction false} CountAppend(a: seq<Effect>, b: seq<Effect>, k: Kind)
    ensures Count(a + b, k) == Count(a, k) + Count(b, k)
  {
    if a == [] {
      assert a + b == b;
    } else {
      assert (a + b)[1..] == a[1..] + b;
      CountAppend(a[1..], b, k);
    }
  }

  lemma {:induction false} YieldsAppend(a: seq<Effect>, b: seq<Effect>)
    ensures Yields(a + b) == Yields(a) + Yields(b)
  {
    if a == [] {
      assert a + b == b;
    } else {
      assert (a + b)[0] == a[0] && (a + b)[1..] == a[1..] + b;
      YieldsAppend(a[1..], b);
      calc {
        Yields(a + b);
        YieldedBy(a[0]) + Yields(a[1..] + b);
        YieldedBy(a[0]) + (Yields(a[1..]) + Yields(b));
        (YieldedBy(a[0]) + Yields(a[1..])) + Yields(b);
      }
    }
  }

  lemma SingleCounts(x: Effect)
    ensures EnvironCalls([x]) == (if x.WsgiEnvironCall? then 1 else 0)
    ensures AppCalls([x]) == (if x.AppCall? then 1 else 0)
    ensures Yields([x]) == YieldedBy(x)
  {
    assert [x][1..] == [];
    assert Count([x], EnvironCallKind) == (if KindOf(x) == EnvironCallKind then 1 else 0) + Count([], EnvironCallKind);
    assert Count([x], AppCallKind) == (if KindOf(x) == AppCallKind then 1 else 0) + Count([], AppCallKind);
  }

  /** Counts of a sequence of three effects, from the counts of each. */
  lemma TripleCounts(x: Effect, y: Effect, z: Effect)
    ensures EnvironCalls([x, y, z]) == EnvironCalls([x]) + EnvironCalls([y]) + EnvironCalls([z])
    ensures AppCalls([x, y, z]) == AppCalls([x]) + AppCalls([y]) + AppCalls([z])
    ensures Yields([x, y, z]) == Yields([x]) + Yields([y]) + Yields([z])
  {
    assert [x, y, z] == [x] + [y] + [z];
    CountAppend([x] + [y], [z], EnvironCallKind);
    CountAppend([x], [y], EnvironCallKind);
    CountAppend([x] + [y], [z], AppCallKind);
    CountAppend([x], [y], AppCallKind);
    YieldsAppend([x] + [y], [z]);
    YieldsAppend([x], [y]);
  }

  lemma OpeningCounts(retried: bool)
    ensures EnvironCalls(Opening(retried)) == (if retried then 2 else 1)
    ensures AppCalls(Opening(retried)) == 0
    ensures Yields(Opening(retried)) == (if retried then [OnHeaders] else [])
  {
    SingleCounts(WsgiEnvironCall);
    if retried {
      SingleCounts(Yield(OnHeaders));
      TripleCounts(WsgiEnvironCall, Yield(OnHeaders), WsgiEnvironCall);
    }
  }

  lemma AnswerCounts(s: Settings, e: Environ)
    ensures EnvironCalls(Answer(s.app, e)) == 0 && AppCalls(Answer(s.app, e)) == 1
    ensures Yields(Answer(s.app, e)) == [WriteResult(s.app(e))]
  {
    SingleCounts(ForceClose);
    SingleCounts(AppCall(e));
    SingleCounts(Yield(WriteResult(s.app(e))));
    TripleCounts(ForceClose, AppCall(e), Yield(WriteResult(s.app(e))));
  }

  lemma ClosingCounts(responded: bool)
    ensures EnvironCalls(Closing(responded)) == 0 && AppCalls(Closing(responded)) == 0
    ensures Yields(Closing(responded)) == (if responded then [ResponseObject] else [])
  {
    SingleCounts(Yield(ResponseObject));
  }

  /**
   * Once the application has been called: `wsgi_environ()` was called once,
   * or twice around a wait on `request.on_headers`; the application exactly
   * once, with `e`; the values yielded are, in order, `request.on_headers` if
   * the body had to wait, the result of writing what the application
   * returned, and the response once it has been reached.
   */
  lemma CompletedCounts(s: Settings, retried: bool, e: Environ, responded: bool)
    ensures EnvironCalls(Completed(s.app, retried, e, responded)) == (if retried then 2 else 1)
    ensures AppCalls(Completed(s.app, retried, e, responded)) == 1
    ensures Completed(s.app, retried, e, responded)[|Opening(retried)| + 1] == AppCall(e)
    ensures Yields(Completed(s.app, retried, e, responded))
            == (if retried then [OnHeaders] else []) + [WriteResult(s.app(e))]
               + (if responded then [ResponseObject] else [])
  {
    var o, a, c := Opening(retried), Answer(s.app, e), Closing(responded);
    OpeningCounts(retried);
    AnswerCounts(s, e);
    ClosingCounts(responded);
    CountAppend(o, a, EnvironCallKind);
    CountAppend(o + a, c, EnvironCallKind);
    CountAppend(o, a, AppCallKind);
    CountAppend(o + a, c, AppCallKind);
    YieldsAppend(o, a);
    YieldsAppend(o + a, c);
  }

  // ---- Properties of the generator ----

  lemma ResumeKeepsReachable(s: Settings, f: Frame, environNow: Option<Environ>)
    requires Reachable(s.worker, s.app, f)
    ensures Reachable(s.worker, s.app, Resume(f, s, environNow).0)
  {
    match f.stage
    case Created =>
      if EnvironTruthy(environNow) {
        var e := Annotate(environNow.value, s);
        assert f.effects + [WsgiEnvironCall] + Answer(s.app, e) == Completed(s.app, false, e, false);
      }
    case AwaitingHeaders =>
      if environNow.Some? {
        var e := Annotate(environNow.value, s);
        assert f.effects + [WsgiEnvironCall] + Answer(s.app, e) == Completed(s.app, true, e, false);
      }
    case DataWritten =>
      var retried :| f.effects == Completed(s.app, retried, f.environ.value, false);
      assert f.effects + [Yield(ResponseObject)] == Completed(s.app, retried, f.environ.value, true);
    case _ =>
  }

  /** However often the event loop resumes it, the generator stays in a frame of `Reachable`. */
  lemma {:induction false} RunKeepsReachable(s: Settings, f: Frame, answers: seq<Option<Environ>>)
    requires Reachable(s.worker, s.app, f)
    ensures Reachable(s.worker, s.app, Run(f, s, answers))
    decreases |answers|
  {
    if answers != [] {
      ResumeKeepsReachable(s, f, answers[0]);
      RunKeepsReachable(s, Resume(f, s, answers[0]).0, answers[1..]);
    }
  }

  /** A finished generator (returned or raised) ignores further resumptions. */
  lemma {:induction false} RunAfterFinish(s: Settings, f: Frame, answers: seq<Option<Environ>>)
    requires f.stage == Exhausted || f.stage == Failed
    ensures Run(f, s, answers) == f
    decreases |answers|
  {
    if answers != [] {
      RunAfterFinish(s, f, answers[1..]);
    }
  }

  /** A frame the body has reached after calling the application: its effects are `Completed`. */
  lemma ReachableCompleted(s: Settings, f: Frame) returns (retried: bool)
    requires Reachable(s.worker, s.app, f)
    requires f.stage in {DataWritten, ResponseYielded, Exhausted}
    ensures f.environ.Some? && f.flags.Some? && Annotated(f.environ.value, s.worker, f.flags.value)
    ensures f.effects == Completed(s.app, retried, f.environ.value, f.stage != DataWritten)
  {
    retried :| f.effects == Completed(s.app, retried, f.environ.value, f.stage != DataWritten);
  }

  /**
   * In every reachable frame: `wsgi_environ()` was called at most twice, and
   * a second time only after yielding `request.on_headers`; the application
   * was called at most once, and once it has been, with the annotated
   * environ.
   */
  lemma ReachableBounds(s: Settings, f: Frame)
    requires Reachable(s.worker, s.app, f)
    ensures EnvironCalls(f.effects) <= 2
    ensures EnvironCalls(f.effects) == 2 ==> |f.effects| >= 3 && f.effects[..3] == Retry()
    ensures AppCalls(f.effects) <= 1
    ensures f.stage in {DataWritten, ResponseYielded, Exhausted} ==>
              && f.environ.Some? && f.flags.Some? && Annotated(f.environ.value, s.worker, f.flags.value)
              && !(f.flags.value.multithread && f.flags.value.multiprocess)
              && AppCalls(f.effects) == 1 && AppCall(f.environ.value) in f.effects
  {
    if f.stage == AwaitingHeaders {
      assert f.effects == Opening(false) + [Yield(OnHeaders)];
      OpeningCounts(false);
      SingleCounts(Yield(OnHeaders));
      CountAppend(Opening(false), [Yield(OnHeaders)], EnvironCallKind);
      CountAppend(Opening(false), [Yield(OnHeaders)], AppCallKind);
    } else if f.stage == Failed {
      OpeningCounts(true);
    } else if f.stage != Created {
      var retried := ReachableCompleted(s, f);
      CompletedCounts(s, retried, f.environ.value, f.stage != DataWritten);
      if retried {
        assert f.effects[..3] == Retry();
      }
    }
  }

  /** Once the response is yielded, the last two values yielded are the write and the response. */
  lemma CompletedYields(s: Settings, retried: bool, e: Environ, responded: bool)
    ensures var y := Yields(Completed(s.app, retried, e, responded));
            && |y| <= 3
            && (responded ==> |y| >= 2 && y[|y| - 2..] == [WriteResult(s.app(e)), ResponseObject])
  {
    CompletedCounts(s, retried, e, responded);
    var y := Yields(Completed(s.app, retried, e, responded));
    if responded {
      assert y[|y| - 2..] == [WriteResult(s.app(e)), ResponseObject];
    }
  }

  /**
   * In every reachable frame the generator has yielded at most three values;
   * once it has yielded the response, the last two are the result of writing
   * what the application returned and then the response.
   */
  lemma ReachableYields(s: Settings, f: Frame)
    requires Reachable(s.worker, s.app, f)
    ensures |Yields(f.effects)| <= 3
    ensures f.stage == ResponseYielded || f.stage == Exhausted ==>
              var y := Yields(f.effects);
              |y| >= 2 && y[|y| - 2..] == [WriteResult(s.app(f.environ.value)), ResponseObject]
  {
    match f.stage
    case Created =>
    case AwaitingHeaders =>
      assert f.effects == Opening(false) + [Yield(OnHeaders)];
      OpeningCounts(false);
      SingleCounts(Yield(OnHeaders));
      YieldsAppend(Opening(false), [Yield(OnHeaders)]);
    case Failed =>
      OpeningCounts(true);
    case _ =>
      var retried := ReachableCompleted(s, f);
      CompletedYields(s, retried, f.environ.value, f.stage != DataWritten);
  }

  /**
   * Whatever `wsgi_environ()` returns and however often the generator is
   * resumed, it never calls `wsgi_environ()` a third time nor the application
   * a second time.
   */
  lemma NeverThirdEnvironCall(s: Settings, answers: seq<Option<Environ>>)
    ensures EnvironCalls(Run(Initial(), s, answers).effects) <= 2
    ensures AppCalls(Run(Initial(), s, answers).effects) <= 1
  {
    RunKeepsReachable(s, Initial(), answers);
    ReachableBounds(s, Run(Initial(), s, answers));
  }

  /**
   * Resumed until it stops, the generator does what its body says read top to
   * bottom: `BodyTrace` of the first two answers of `wsgi_environ()`.
   */
  lemma RunMatchesBodyTrace(s: Settings, answers: seq<Option<Environ>>)
    requires |answers| >= 4
    ensures var f := Run(Initial(), s, answers);
            f.stage in {Exhausted, Failed} && f.effects == BodyTrace(s, answers[0], answers[1])
    ensures Run(Initial(), s, answers).stage == Failed <==> !EnvironTruthy(answers[0]) && answers[1].None?
    ensures !EnvironTruthy(answers[0]) && answers[1].None? ==>
              Resume(Resume(Initial(), s, answers[0]).0, s, answers[1]).1 == Raised(AttributeError)
  {
    var f1 := Resume(Initial(), s, answers[0]).0;
    var f2 := Resume(f1, s, answers[1]).0;
    var f3 := Resume(f2, s, answers[2]).0;
    var f4 := Resume(f3, s, answers[3]).0;
    assert Run(Initial(), s, answers) == Run(f1, s, answers[1..]);
    assert Run(f1, s, answers[1..]) == Run(f2, s, answers[2..]);
    assert Run(f2, s, answers[2..]) == Run(f3, s, answers[3..]);
    if EnvironTruthy(answers[0]) {
      RunAfterFinish(s, f3, answers[3..]);
      var e := Annotate(answers[0].value, s);
      assert f3.effects == Completed(s.app, false, e, true);
    } else if answers[1].None? {
      RunAfterFinish(s, f2, answers[2..]);
    } else {
      assert Run(f3, s, answers[3..]) == Run(f4, s, answers[4..]);
      RunAfterFinish(s, f4, answers[4..]);
      var e := Annotate(answers[1].value, s);
      assert f4.effects == Completed(s.app, true, e, true);
    }
  }

  /**
   * Once the write is yielded, nothing the generator does depends on the
   * worker's settings or on what `wsgi_environ()` would return: the next
   * `next()` yields the response, and every later one stops.
   */
  lemma ResumeAfterWrite(f: Frame, s1: Settings, s2: Settings, now1: Option<Environ>, now2: Option<Environ>)
    requires f.stage in {DataWritten, ResponseYielded, Exhausted, Failed}
    ensures Resume(f, s1, now1) == Resume(f, s2, now2)
    ensures Resume(f, s1, now1).1 == if f.stage == DataWritten then Produced(ResponseObject) else StopIteration
  {
  }

  /**
   * The body read top to bottom: one call of `wsgi_environ()` when the first
   * answer is non-empty, else a wait on `request.on_headers` and exactly one
   * retry; a `None` retry raises before anything else happens; otherwise the
   * application is called once with the annotated environ and the generator
   * yields the write of its result and then the response.
   */
  lemma BodyTraceProperties(s: Settings, first: Option<Environ>, second: Option<Environ>)
    ensures var t := BodyTrace(s, first, second);
            && EnvironCalls(t) == (if EnvironTruthy(first) then 1 else 2)
            && (OnHeaders in Yields(t) <==> !EnvironTruthy(first))
    ensures !EnvironTruthy(first) && second.None? ==>
              var t := BodyTrace(s, first, second);
              AppCalls(t) == 0 && Yields(t) == [OnHeaders]
    ensures EnvironTruthy(first) || second.Some? ==>
              var e := Annotate(if EnvironTruthy(first) then first.value else second.value, s);
              var t := BodyTrace(s, first, second);
              && AppCalls(t) == 1 && AppCall(e) in t
              && |Yields(t)| >= 2 && Yields(t)[|Yields(t)| - 2..] == [WriteResult(s.app(e)), ResponseObject]
  {
    if EnvironTruthy(first) || second.Some? {
      var retried := !EnvironTruthy(first);
      var e := Annotate(if retried then second.value else first.value, s);
      CompletedCounts(s, retried, e, true);
    } else {
      OpeningCounts(true);
    }
  }

  /**
   * The generator object `handle_request(worker, request)` returns. Nothing of
   * the body runs until the first `Next`; each `Next` is one `next()` by the
   * event loop.
   */
  class RequestGenerator {
    const worker: Worker
    var stage: Stage
    var environ: Option<Environ>
    var flags: Option<Flags>
    var effects: seq<Effect>

    constructor (worker: Worker)
      ensures this.worker == worker && State() == Initial()
    {
      this.worker := worker;
      stage := Created;
      environ := None;
      flags := None;
      effects := [];
    }

    function State(): Frame
      reads this
    {
      Frame(stage, environ, flags, effects)
    }

    /** Depends only on the generator's own state: its owner may change `worker.cfg` between resumptions. */
    ghost predicate Valid()
      reads this
    {
      Reachable(worker, worker.appHandler, State())
    }

    /** Run the body to its next `yield`, return or raise; `environNow` is what `wsgi_environ()` returns now. */
    method Next(environNow: Option<Environ>) returns (r: Resumed)
      requires Valid()
      modifies this
      ensures Valid()
      ensures (State(), r) == Resume(old(State()), SettingsOf(worker), environNow)
    {
      var settings := SettingsOf(worker);
      ResumeKeepsReachable(settings, State(), environNow);
      if stage == Created || stage == AwaitingHeaders {
        var retrying := stage == AwaitingHeaders;
        effects := effects + [WsgiEnvironCall];
        if !retrying && !EnvironTruthy(environNow) {
          stage, environ, flags := AwaitingHeaders, environNow, None;
          effects := effects + [Yield(OnHeaders)];
          return Produced(OnHeaders);
        }
        if environNow.None? {
          stage, environ, flags := Failed, None, None;
          return Raised(AttributeError);
        }
        var mtmp := ConcurrencyFlags(settings.concurrency, settings.workers);
        var e := Annotate(environNow.value, settings);
        effects := effects + [ForceClose];
        var data := worker.appHandler(e);
        effects := effects + [AppCall(e), Yield(WriteResult(data))];
        assert effects == old(effects) + [WsgiEnvironCall] + Answer(settings.app, e);
        stage, environ, flags := DataWritten, Some(e), Some(mtmp);
        r := Produced(WriteResult(data));
      } else if stage == DataWritten {
        stage := ResponseYielded;
        effects := effects + [Yield(ResponseObject)];
        r := Produced(ResponseObject);
      } else {
        stage := if stage == ResponseYielded then Exhausted else stage;
        r := StopIteration;
      }
    }
  }

  /**
   * The flags are read from `worker.cfg` once, before the write is yielded.
   * Changing the configuration while the generator is suspended there does
   * not stop it from yielding the response, and does not change the environ
   * the application saw.
   */
  method ConfigChangeAfterWrite() returns (written: Resumed, responded: Resumed, e: Environ)
    ensures written.Produced? && written.value.WriteResult?
    ensures responded == Produced(ResponseObject)
    ensures "wsgi.multithread" in e && e["wsgi.multithread"] == Flag(true)
    ensures "wsgi.multiprocess" in e && e["wsgi.multiprocess"] == Flag(false)
  {
    var cfg := new Config("thread", 4, Some("127.0.0.1:8060"));
    var loop := new IOLoop();
    var worker := new Worker(cfg, loop, (env: Environ) => ["hello"], null);
    var g := new RequestGenerator(worker);
    written := g.Next(Some(map["PATH_INFO" := Text("/")]));
    cfg.workers := 1;
    responded := g.Next(None);
    e := g.environ.value;
  }
}

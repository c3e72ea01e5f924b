/** The request context of src/request-context.js: a step queue bound to one
    connection, a fluent `Step` builder, and `ExecuteSql`, which turns a
    query configuration into the calls made on one driver request.

    The driver is a parameter: a function from the recorded request (its
    connection and the calls made on it, ending with the query) to the rows
    or the error `request.query` settles with. A step's action is the tagged
    variant the source distinguishes with `typeof`: a configuration object or
    a function. A function step is modelled by what it decides from the
    results so far: run one query through the executor, or settle by itself. */
module RequestContext {
  import opened Values
  import PQ = PromiseQueue
  import Connections

  /** A driver type such as `mssql.Int`, by name. */
  datatype SqlType = SqlType(name: string)

  /** A parameter value: a non-object scalar, or an object whose `type` (when
      truthy) names a driver type and whose `value` is bound. */
  datatype Param = Plain(value: Scalar) | Described(sqlType: Option<SqlType>, value: Scalar)

  /** The `query` field: literal text, or a promise-like value (one with a
      `then`) that settles with the text or with an error. */
  datatype QuerySource = Text(text: string) | Deferred(resolution: Result<string, Error>)

  /** A step's configuration object. `params` lists `Object.keys(params)` in
      order with each key's value; `None` is a falsy `params`. */
  datatype QueryConfig = QueryConfig(query: QuerySource, params: Option<seq<(string, Param)>>)

  /** A call made on a driver request. */
  datatype DriverCall =
    | Input(key: string, value: Scalar)
    | TypedInput(key: string, sqlType: SqlType, value: Scalar)
    | Query(text: string)

  /** A driver request: the connection it was created on and the calls made on it. */
  datatype Request = Request(connection: Connections.Pool, calls: seq<DriverCall>)

  type Row = map<string, Scalar>
  type Rows = seq<Row>

  /** What the driver answers to a request that was issued. */
  type Driver = Request -> Result<Rows, Error>

  /** What a step does when invoked. */
  datatype StepPlan = Execute(config: QueryConfig) | Settle(outcome: Result<Rows, Error>)

  /** The producer stored in the queue, applied to the live result object. */
  type Producer = map<string, Rows> -> StepPlan

  /** The argument of `step`. */
  datatype StepAction = ConfigStep(config: QueryConfig) | FunctionStep(body: Producer)

  /** One producer invocation: the results it saw, the driver request it
      created (if any), and what it settled with. */
  datatype Invocation = Invocation(seen: map<string, Rows>, request: Option<Request>, outcome: Result<Rows, Error>)

  /** A request context: its connection, its queue, and the invocations made so far. */
  datatype Context = Context(connection: Connections.Pool, queue: PQ.Queue<Producer, Rows, Error>, log: seq<Invocation>)

  /** `new RequestContext(connection)`. */
  function NewContext(connection: Connections.Pool): (ctx: Context)
    ensures PQ.Valid(ctx.queue) && ctx.queue.phase.Building?
    ensures ctx.connection == connection && ctx.queue.pending == [] && ctx.log == []
  {
    Context(connection, PQ.Empty(), [])
  }

  // ---------------------------------------------------------------------
  // Building

  /** The producer `step` derives from its action: a configuration object is
      replaced by a function that passes it to the executor. */
  function AsProducer(action: StepAction): (p: Producer)
    ensures action.FunctionStep? ==> p == action.body
    ensures action.ConfigStep? ==> forall seen :: p(seen) == Execute(action.config)
  {
    match action
    case ConfigStep(config) => (_: map<string, Rows>) => Execute(config)
    case FunctionStep(body) => body
  }

  /** `step(alias, action)`: queue exactly one entry, at the end, and return
      the same context. */
  function Step(ctx: Context, alias: string, action: StepAction): (r: Context)
    ensures r.connection == ctx.connection && r.log == ctx.log
    ensures r.queue.phase == ctx.queue.phase && r.queue.result == ctx.queue.result
    ensures |r.queue.pending| == |ctx.queue.pending| + 1
    ensures r.queue.pending[..|ctx.queue.pending|] == ctx.queue.pending
    ensures r.queue.pending[|ctx.queue.pending|] == PQ.Entry(alias, AsProducer(action))
    ensures r.queue.invoked == ctx.queue.invoked && r.queue.settlements == ctx.queue.settlements
    ensures PQ.Valid(ctx.queue) ==> PQ.Valid(r.queue)
  {
    ctx.(queue := PQ.Add(ctx.queue, alias, AsProducer(action)))
  }

  /** The queue entries chained `step` calls produce. */
  function Entries(steps: seq<(string, StepAction)>): (es: seq<PQ.Entry<Producer>>)
    ensures |es| == |steps|
    ensures forall i :: 0 <= i < |steps| ==> es[i].alias == steps[i].0
    ensures forall i :: 0 <= i < |steps| ==> es[i].producer == AsProducer(steps[i].1)
    decreases |steps|
  {
    if |steps| == 0 then [] else [PQ.Entry(steps[0].0, AsProducer(steps[0].1))] + Entries(steps[1..])
  }

  /** Chained `step` calls: one entry per call is queued, in call order,
      after the entries already queued, on the same connection; nothing runs. */
  function Steps(ctx: Context, steps: seq<(string, StepAction)>): (r: Context)
    ensures r.connection == ctx.connection && r.log == ctx.log
    ensures r.queue.phase == ctx.queue.phase && r.queue.result == ctx.queue.result
    ensures r.queue.invoked == ctx.queue.invoked && r.queue.settlements == ctx.queue.settlements
    ensures r.queue.pending == ctx.queue.pending + Entries(steps)
    ensures PQ.Valid(ctx.queue) ==> PQ.Valid(r.queue)
    decreases |steps|
  {
    if |steps| == 0 then
      assert ctx.queue.pending + [] == ctx.queue.pending;
      ctx
    else
      StepThenSteps(ctx, steps);
      Steps(Step(ctx, steps[0].0, steps[0].1), steps[1..])
  }

  /** Queueing the first step and then the rest queues all of them. */
  lemma StepThenSteps(ctx: Context, steps: seq<(string, StepAction)>)
    requires |steps| > 0
    ensures Step(ctx, steps[0].0, steps[0].1).queue.pending + Entries(steps[1..])
            == ctx.queue.pending + Entries(steps)
  {
    var e := PQ.Entry(steps[0].0, AsProducer(steps[0].1));
    var rest := Entries(steps[1..]);
    calc {
      Step(ctx, steps[0].0, steps[0].1).queue.pending + rest;
      PQ.Add(ctx.queue, steps[0].0, AsProducer(steps[0].1)).pending + rest;
      (ctx.queue.pending + [e]) + rest;
      ctx.queue.pending + ([e] + rest);
      ctx.queue.pending + Entries(steps);
    }
  }

  /** A configuration step behaves exactly like the function step
      `execute => execute(config)`, whatever the results so far. */
  lemma ConfigStepIsExecuteStep(config: QueryConfig, seen: map<string, Rows>)
    ensures AsProducer(ConfigStep(config))(seen) == AsProducer(FunctionStep(_ => Execute(config)))(seen)
    ensures AsProducer(ConfigStep(config))(seen) == Execute(config)
  {
  }

  // ---------------------------------------------------------------------
  // Executing a query

  /** The call binding one parameter. */
  function BindParam(key: string, p: Param): (c: DriverCall)
    ensures !c.Query? && c.key == key
    ensures c.value == p.value
    ensures c.TypedInput? <==> p.Described? && p.sqlType.Some?
    ensures c.TypedInput? ==> c.sqlType == p.sqlType.value
  {
    match p
    case Plain(v) => Input(key, v)
    case Described(t, v) => if t.Some? then TypedInput(key, t.value, v) else Input(key, v)
  }

  /** `Object.keys(params).forEach(...)`: one call per key, in key order. */
  function BindAll(params: seq<(string, Param)>): (calls: seq<DriverCall>)
    ensures |calls| == |params|
    ensures forall i :: 0 <= i < |params| ==> calls[i] == BindParam(params[i].0, params[i].1)
    decreases |params|
  {
    if |params| == 0 then [] else [BindParam(params[0].0, params[0].1)] + BindAll(params[1..])
  }

  /** The input calls for a configuration: none when `params` is falsy. */
  function Inputs(config: QueryConfig): seq<DriverCall> {
    if config.params.Some? then BindAll(config.params.value) else []
  }

  /** `_isQueryFromFile`: the query is not a string but has a `then`. */
  predicate IsQueryFromFile(q: QuerySource) {
    q.Deferred?
  }

  /** The request issues no query exactly when the query is read from a file
      and reading it failed; a literal query is issued as given, a query
      from a file with the text it resolved to. */
  lemma QueryFromFileDecidesIssue(connection: Connections.Pool, config: QueryConfig, driver: Driver)
    ensures var calls := ExecuteSql(connection, config, driver).request.calls;
      && ((IsQueryFromFile(config.query) && config.query.resolution.Err?) <==>
            (forall i :: 0 <= i < |calls| ==> !calls[i].Query?))
      && (!IsQueryFromFile(config.query) ==> calls[|calls| - 1] == Query(config.query.text))
      && (IsQueryFromFile(config.query) && config.query.resolution.Ok? ==>
            calls[|calls| - 1] == Query(config.query.resolution.value))
  {
    if IsQueryFromFile(config.query) && config.query.resolution.Err? {
      var calls := ExecuteSql(connection, config, driver).request.calls;
      assert calls == Inputs(config);
      forall i | 0 <= i < |calls| ensures !calls[i].Query? {
        assert calls[i] == BindParam(config.params.value[i].0, config.params.value[i].1);
      }
    } else {
      OneQueryPerRequest(connection, config, driver);
    }
  }

  /** The result of `_executeSql`: the request it created and what it settled with. */
  datatype Execution = Execution(request: Request, outcome: Result<Rows, Error>)

  /** `_executeSql`: create a request on the context's connection, bind every
      parameter, then issue the query: at once for literal text, after the
      promise settles for a deferred one. A deferred query that rejects is
      never issued and its error is what the step settles with. */
  function ExecuteSql(connection: Connections.Pool, config: QueryConfig, driver: Driver): (e: Execution)
    ensures e.request.connection == connection
    ensures var n := if config.params.Some? then |config.params.value| else 0;
      && n <= |e.request.calls| <= n + 1
      && (forall i :: 0 <= i < n ==> !e.request.calls[i].Query?)
      && (forall i :: 0 <= i < n ==> e.request.calls[i].key == config.params.value[i].0)
    ensures var q := config.query;
      if q.Deferred? && q.resolution.Err? then
        e.request.calls == Inputs(config) && e.outcome == Err(q.resolution.error)
      else
        && e.request.calls == Inputs(config) + [Query(if q.Text? then q.text else q.resolution.value)]
        && e.outcome == driver(e.request)
  {
    var inputs := Inputs(config);
    if IsQueryFromFile(config.query) then
      match config.query.resolution
      case Ok(text) =>
        var request := Request(connection, inputs + [Query(text)]);
        Execution(request, driver(request))
      case Err(error) =>
        Execution(Request(connection, inputs), Err(error))
    else
      var request := Request(connection, inputs + [Query(config.query.text)]);
      Execution(request, driver(request))
  }

  /** Parameter classification, stated call by call: a non-object parameter
      and an object without a truthy `type` bind with an inferred type, an
      object with a truthy `type` binds with that type; either way the bound
      value is the scalar itself or the object's `value`, under its key. */
  lemma ParamBinding(config: QueryConfig, driver: Driver, connection: Connections.Pool, i: nat)
    requires config.params.Some? && i < |config.params.value|
    ensures var (key, p) := config.params.value[i];
            var c := ExecuteSql(connection, config, driver).request.calls[i];
      && (p.Plain? ==> c == Input(key, p.value))
      && (p.Described? && p.sqlType.None? ==> c == Input(key, p.value))
      && (p.Described? && p.sqlType.Some? ==> c == TypedInput(key, p.sqlType.value, p.value))
  {
  }

  /** Every issued request carries exactly one query call, and it is the last call. */
  lemma OneQueryPerRequest(connection: Connections.Pool, config: QueryConfig, driver: Driver)
    requires !(config.query.Deferred? && config.query.resolution.Err?)
    ensures var calls := ExecuteSql(connection, config, driver).request.calls;
      && |calls| > 0 && calls[|calls| - 1].Query?
      && forall i :: 0 <= i < |calls| - 1 ==> !calls[i].Query?
  {
  }

  // ---------------------------------------------------------------------
  // Running

  /** Invoking a producer with the live result object. */
  function Invoke(connection: Connections.Pool, producer: Producer, seen: map<string, Rows>, driver: Driver): (inv: Invocation)
    ensures inv.seen == seen
    ensures inv.request.Some? ==> inv.request.value.connection == connection
    ensures producer(seen).Settle? ==> inv.request == None && inv.outcome == producer(seen).outcome
    ensures producer(seen).Execute? ==>
              var e := ExecuteSql(connection, producer(seen).config, driver);
              inv.request == Some(e.request) && inv.outcome == e.outcome
  {
    match producer(seen)
    case Execute(config) =>
      var e := ExecuteSql(connection, config, driver);
      Invocation(seen, Some(e.request), e.outcome)
    case Settle(outcome) => Invocation(seen, None, outcome)
  }

  /** `query()`: the queue's `start()`, nothing else. */
  function StartQuery(ctx: Context): (r: Context)
    requires PQ.Valid(ctx.queue) && ctx.queue.phase.Building? && |ctx.queue.pending| > 0
    ensures r == ctx.(queue := PQ.Start(ctx.queue))
    ensures r.queue.phase.Draining? && r.queue.invoked == ctx.queue.invoked && r.log == ctx.log
  {
    ctx.(queue := PQ.Start(ctx.queue))
  }

  /** The outcomes recorded in a log. */
  function Outcomes(log: seq<Invocation>): (os: seq<Result<Rows, Error>>)
    ensures |os| == |log|
    ensures forall i :: 0 <= i < |log| ==> os[i] == log[i].outcome
  {
    seq(|log|, i requires 0 <= i < |log| => log[i].outcome)
  }

  /** The event loop's part: each `_dequeue` invokes the head producer with
      the live result object, and the queue acts on what it settles with,
      until the queue settles. */
  function Run(ctx: Context, driver: Driver): (r: Context)
    requires PQ.Valid(ctx.queue)
    ensures PQ.Valid(r.queue) && r.connection == ctx.connection
    ensures !r.queue.phase.Draining?
    ensures ctx.queue.phase.Draining? ==> r.queue.settlements == 1
    ensures |ctx.log| <= |r.log| && r.log[..|ctx.log|] == ctx.log
    ensures |r.log| - |ctx.log| == |r.queue.invoked| - |ctx.queue.invoked|
    decreases |ctx.queue.pending|
  {
    if !ctx.queue.phase.Draining? then ctx
    else
      var inv := Invoke(ctx.connection, ctx.queue.pending[0].producer, ctx.queue.result, driver);
      Run(Context(ctx.connection, PQ.Dequeue(ctx.queue, inv.outcome), ctx.log + [inv]), driver)
  }

  /** Running a context is draining its queue with the outcomes its producers
      settle with, one invocation per outcome; the `i`-th invocation runs the
      `i`-th pending producer, which saw the result object exactly as the
      queue held it when it was invoked. */
  lemma RunIsDrain(ctx: Context, driver: Driver)
    requires PQ.Valid(ctx.queue)
    ensures var r := Run(ctx, driver);
            var made := r.log[|ctx.log|..];
      && r.queue == PQ.Drain(ctx.queue, Outcomes(made))
      && forall i :: 0 <= i < |made| ==>
           var before := PQ.Drain(ctx.queue, Outcomes(made)[..i]);
           before.phase.Draining? && made[i].seen == before.result
    ensures var made := Run(ctx, driver).log[|ctx.log|..];
      && |made| <= |ctx.queue.pending|
      && forall i :: 0 <= i < |made| ==>
           made[i] == Invoke(ctx.connection, ctx.queue.pending[i].producer, made[i].seen, driver)
  {
    RunInvokesPending(ctx, driver);
    var made := Run(ctx, driver).log[|ctx.log|..];
    assert Run(ctx, driver).queue == PQ.Drain(ctx.queue, Outcomes(made)) by {
      RunDrainsQueue(ctx, driver);
    }
    forall i | 0 <= i < |made|
      ensures var before := PQ.Drain(ctx.queue, Outcomes(made)[..i]);
              before.phase.Draining? && made[i].seen == before.result
    {
      RunSeesAt(ctx, driver, i);
    }
  }

  /** Every logged invocation runs the producer of the pending entry at the
      same position. */
  lemma RunInvokesPending(ctx: Context, driver: Driver)
    requires PQ.Valid(ctx.queue)
    ensures var made := Run(ctx, driver).log[|ctx.log|..];
      && |made| <= |ctx.queue.pending|
      && forall i :: 0 <= i < |made| ==>
           made[i] == Invoke(ctx.connection, ctx.queue.pending[i].producer, made[i].seen, driver)
  {
    var made := Run(ctx, driver).log[|ctx.log|..];
    if |made| > 0 {
      RunInvokesEntries(ctx, driver, |made| - 1);
    }
    forall i | 0 <= i < |made|
      ensures made[i] == Invoke(ctx.connection, ctx.queue.pending[i].producer, made[i].seen, driver)
    {
      RunInvokesEntries(ctx, driver, i);
    }
  }

  /** The `i`-th logged invocation is the producer of the `i`-th pending
      entry, applied on this context's connection: producers run in
      insertion order, and each one's outcome is what it decided. */
  lemma {:induction false} RunInvokesEntries(ctx: Context, driver: Driver, i: nat)
    requires PQ.Valid(ctx.queue)
    requires i < |Run(ctx, driver).log| - |ctx.log|
    ensures i < |ctx.queue.pending|
    ensures var made := Run(ctx, driver).log[|ctx.log|..];
      made[i] == Invoke(ctx.connection, ctx.queue.pending[i].producer, made[i].seen, driver)
    decreases |ctx.queue.pending|
  {
    var r := Run(ctx, driver);
    var made := r.log[|ctx.log|..];
    var inv := Invoke(ctx.connection, ctx.queue.pending[0].producer, ctx.queue.result, driver);
    var next := Context(ctx.connection, PQ.Dequeue(ctx.queue, inv.outcome), ctx.log + [inv]);
    var rest := r.log[|next.log|..];
    assert made == [inv] + rest;
    if i > 0 {
      RunInvokesEntries(next, driver, i - 1);
      assert made[i] == rest[i - 1];
      assert next.queue.pending[i - 1] == ctx.queue.pending[i];
    }
  }

  /** The queue after running is the queue drained with the logged outcomes. */
  lemma {:induction false} RunDrainsQueue(ctx: Context, driver: Driver)
    requires PQ.Valid(ctx.queue)
    ensures var r := Run(ctx, driver);
      r.queue == PQ.Drain(ctx.queue, Outcomes(r.log[|ctx.log|..]))
    decreases |ctx.queue.pending|
  {
    var r := Run(ctx, driver);
    var made := r.log[|ctx.log|..];
    if ctx.queue.phase.Draining? {
      var inv := Invoke(ctx.connection, ctx.queue.pending[0].producer, ctx.queue.result, driver);
      var next := Context(ctx.connection, PQ.Dequeue(ctx.queue, inv.outcome), ctx.log + [inv]);
      RunDrainsQueue(next, driver);
      var rest := r.log[|next.log|..];
      assert made == [inv] + rest;
      assert Outcomes(made) == [inv.outcome] + Outcomes(rest);
    } else {
      assert made == [];
    }
  }


  /** The `i`-th logged invocation saw the result the queue held, still
      draining, after the outcomes logged before it. */
  lemma {:induction false} RunSeesAt(ctx: Context, driver: Driver, i: nat)
    requires PQ.Valid(ctx.queue)
    requires i < |Run(ctx, driver).log| - |ctx.log|
    ensures var r := Run(ctx, driver);
            var made := r.log[|ctx.log|..];
            var before := PQ.Drain(ctx.queue, Outcomes(made)[..i]);
      before.phase.Draining? && made[i].seen == before.result
    decreases |ctx.queue.pending|
  {
    var r := Run(ctx, driver);
    var made := r.log[|ctx.log|..];
    var inv := Invoke(ctx.connection, ctx.queue.pending[0].producer, ctx.queue.result, driver);
    var next := Context(ctx.connection, PQ.Dequeue(ctx.queue, inv.outcome), ctx.log + [inv]);
    var rest := r.log[|next.log|..];
    assert made == [inv] + rest;
    var os := Outcomes(made);
    assert os == [inv.outcome] + Outcomes(rest);
    if i > 0 {
      RunSeesAt(next, driver, i - 1);
      DrainAfterHead(ctx.queue, inv.outcome, Outcomes(rest), i);
      assert made[i] == rest[i - 1];
    } else {
      assert os[..0] == [];
    }
  }

  /** Draining a prefix of outcomes that starts with the head's outcome is
      draining the rest of that prefix after one `_dequeue`. */
  lemma DrainAfterHead(q: PQ.Queue<Producer, Rows, Error>, o: Result<Rows, Error>, os: seq<Result<Rows, Error>>, i: nat)
    requires PQ.Valid(q) && q.phase.Draining? && 0 < i <= |os| + 1
    ensures PQ.Drain(q, ([o] + os)[..i]) == PQ.Drain(PQ.Dequeue(q, o), os[..i - 1])
  {
    var pre := ([o] + os)[..i];
    assert pre[0] == o && pre[1..] == os[..i - 1];
  }

  /** The whole request: build the steps on a made context, `query()`, and
      run. With `k` the first step that rejects: when there is one, the
      request rejects with exactly its error after invoking steps 0..k and
      nothing after; otherwise it resolves once, after the last step, with one
      result key per step alias. Either way it settles exactly once, and each
      step saw exactly the results of the steps before it. */
  lemma QueryOutcome(connection: Connections.Pool, steps: seq<(string, StepAction)>, driver: Driver)
    requires |steps| > 0
    ensures var built := Steps(NewContext(connection), steps);
            var r := Run(StartQuery(built), driver);
            var os := Outcomes(r.log);
            var k := PQ.FirstError(os);
      && r.queue.settlements == 1
      && (k < |steps| ==>
            && |r.log| == k + 1
            && r.queue.phase == PQ.Failed(r.log[k].outcome.error)
            && r.queue.invoked == Entries(steps)[..k + 1]
            && r.queue.result.Keys == PQ.Aliases(Entries(steps)[..k]))
      && (k >= |steps| ==>
            && |r.log| == |steps|
            && r.queue.phase.Completed?
            && r.queue.invoked == Entries(steps)
            && r.queue.result.Keys == PQ.Aliases(Entries(steps)))
      && |r.log| <= |steps|
      && (forall i :: 0 <= i < |r.log| ==>
            r.log[i] == Invoke(connection, AsProducer(steps[i].1), r.log[i].seen, driver))
      && forall i :: 0 <= i < |r.log| ==>
           r.log[i].seen == PQ.Accumulate(map[], Entries(steps)[..i], PQ.OkPrefix(os)[..i])
  {
    QuerySettles(connection, steps, driver);
    QueryInvokesSteps(connection, steps, driver);
  }

  /** The settlement and seen-results half of `QueryOutcome`. */
  lemma QuerySettles(connection: Connections.Pool, steps: seq<(string, StepAction)>, driver: Driver)
    requires |steps| > 0
    ensures var built := Steps(NewContext(connection), steps);
            var r := Run(StartQuery(built), driver);
            var os := Outcomes(r.log);
            var k := PQ.FirstError(os);
      && r.queue.settlements == 1
      && (k < |steps| ==>
            && |r.log| == k + 1
            && r.queue.phase == PQ.Failed(r.log[k].outcome.error)
            && r.queue.invoked == Entries(steps)[..k + 1]
            && r.queue.result.Keys == PQ.Aliases(Entries(steps)[..k]))
      && (k >= |steps| ==>
            && |r.log| == |steps|
            && r.queue.phase.Completed?
            && r.queue.invoked == Entries(steps)
            && r.queue.result.Keys == PQ.Aliases(Entries(steps)))
      && forall i :: 0 <= i < |r.log| ==>
           r.log[i].seen == PQ.Accumulate(map[], Entries(steps)[..i], PQ.OkPrefix(os)[..i])
  {
    var built := Steps(NewContext(connection), steps);
    assert [] + Entries(steps) == Entries(steps);
    var started := StartQuery(built);
    RunSettles(started, driver);
    RunSeen(started, driver);
  }

  /** Each logged invocation of the request runs the producer of the step at
      the same position, on the request's connection. */
  lemma QueryInvokesSteps(connection: Connections.Pool, steps: seq<(string, StepAction)>, driver: Driver)
    requires |steps| > 0
    ensures var r := Run(StartQuery(Steps(NewContext(connection), steps)), driver);
      && |r.log| <= |steps|
      && forall i :: 0 <= i < |r.log| ==>
           r.log[i] == Invoke(connection, AsProducer(steps[i].1), r.log[i].seen, driver)
  {
    var started := StartQuery(Steps(NewContext(connection), steps));
    assert [] + Entries(steps) == Entries(steps);
    RunInvokesPending(started, driver);
    assert Run(started, driver).log[|started.log|..] == Run(started, driver).log;
  }

  /** Running a freshly started context settles it exactly once: with the
      first rejection when one of the pending steps rejects, otherwise with
      every step's result. */
  lemma RunSettles(ctx: Context, driver: Driver)
    requires PQ.Valid(ctx.queue) && ctx.queue.phase.Draining?
    requires ctx.log == [] && ctx.queue.invoked == [] && ctx.queue.result == map[]
    ensures var es, r := ctx.queue.pending, Run(ctx, driver);
            var os := Outcomes(r.log);
            var k := PQ.FirstError(os);
      && r.queue.settlements == 1
      && (k < |es| ==>
            && |r.log| == k + 1
            && r.queue.phase == PQ.Failed(r.log[k].outcome.error)
            && r.queue.invoked == es[..k + 1]
            && r.queue.result.Keys == PQ.Aliases(es[..k]))
      && (k >= |es| ==>
            && |r.log| == |es|
            && r.queue.phase.Completed?
            && r.queue.invoked == es
            && r.queue.result.Keys == PQ.Aliases(es))
  {
    var r := Run(ctx, driver);
    RunIsDrain(ctx, driver);
    assert r.log[|ctx.log|..] == r.log;
    PQ.SettledDrain(ctx.queue, Outcomes(r.log));
  }

  /** Each producer of a started context saw exactly the results of the
      steps before it. */
  lemma RunSeen(ctx: Context, driver: Driver)
    requires PQ.Valid(ctx.queue) && ctx.queue.phase.Draining?
    requires ctx.log == [] && ctx.queue.result == map[]
    ensures var r := Run(ctx, driver);
      |r.log| <= |ctx.queue.pending| && |r.log| <= PQ.FirstError(Outcomes(r.log)) + 1
    ensures var r := Run(ctx, driver);
            var os := Outcomes(r.log);
      forall i :: 0 <= i < |r.log| ==>
        r.log[i].seen == PQ.Accumulate(map[], ctx.queue.pending[..i], PQ.OkPrefix(os)[..i])
  {
    var r := Run(ctx, driver);
    RunIsDrain(ctx, driver);
    assert r.log[|ctx.log|..] == r.log;
    var os := Outcomes(r.log);
    if |r.log| > 0 {
      SeenIsPrior(ctx.queue, os, |r.log| - 1);
      OkPrefixOfPrefix(os, |r.log| - 1);
    }
    forall i | 0 <= i < |r.log|
      ensures r.log[i].seen == PQ.Accumulate(map[], ctx.queue.pending[..i], PQ.OkPrefix(os)[..i])
    {
      SeenIsPrior(ctx.queue, os, i);
      OkPrefixOfPrefix(os, i);
    }
  }

  /** If the queue is still draining after `i` outcomes, the result it holds
      is what the first `i` entries wrote. */
  lemma SeenIsPrior(q: PQ.Queue<Producer, Rows, Error>, os: seq<Result<Rows, Error>>, i: nat)
    requires PQ.Valid(q) && q.phase.Draining? && i <= |os|
    requires PQ.Drain(q, os[..i]).phase.Draining?
    ensures i < |q.pending| && PQ.FirstError(os[..i]) == i
    ensures PQ.Drain(q, os[..i]).result == PQ.Accumulate(q.result, q.pending[..i], PQ.OkPrefix(os[..i]))
  {
    var pre := os[..i];
    var k := PQ.FirstError(pre);
    if k < |q.pending| && k < |pre| {
      PQ.DrainFails(q, pre);
    } else if |q.pending| <= k {
      PQ.DrainCompletes(q, pre);
    } else {
      PQ.DrainPartial(q, pre);
    }
  }

  /** The fulfilled prefix of a prefix that holds no rejection. */
  lemma {:induction false} OkPrefixOfPrefix(os: seq<Result<Rows, Error>>, i: nat)
    requires i <= |os| && PQ.FirstError(os[..i]) == i
    ensures i <= |PQ.OkPrefix(os)| && PQ.OkPrefix(os[..i]) == PQ.OkPrefix(os)[..i]
    decreases i
  {
    if i > 0 {
      assert os[..i][1..] == os[1..][..i - 1];
      OkPrefixOfPrefix(os[1..], i - 1);
    }
  }
}

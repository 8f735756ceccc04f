/**
  The application's request entry point and middleware list
  (lib/simpler/application.rb).

  `call` resolves the route, records it in the environment, builds the
  controller and returns its response. Two kinds of exception are turned
  into responses there: a missing route becomes a 404, and any other error
  a 500 that is also written to the error log. Which of the three a request
  ends in is the pure function `Dispatch`; the response and the log lines are
  pure functions of that outcome.

  The router's lookup (`route_for`) and the controller's action code are not
  part of this model; they are the application's parameters `resolve` and
  `actions`.
 */
module Simpler {
  import opened Wrappers
  import opened Http
  import opened Controllers

  /** One `use` registration: the middleware class and its extra arguments. */
  datatype Middleware = Middleware(name: string, args: seq<Value>)

  /** How a request ends. */
  datatype Outcome =
    | NotFound(error: Error)     // rescued Router::RouteNotFoundError
    | Failed(error: Error)       // rescued StandardError
    | Responded(triple: Triple)  // the controller's response

  const PlainText: map<string, string> := map[ContentTypeHeader := "text/plain"]

  /** The rescue clauses: RouteNotFoundError first, every other error after. */
  function Classify(e: Error): Outcome {
    if e.kind.RouteNotFound? then NotFound(e) else Failed(e)
  }

  /** make_not_found_response */
  function NotFoundResponse(e: Error): Triple {
    Triple(404, PlainText, ["404 Not Found\n\n" + e.message])
  }

  /** make_error_response, without the logging */
  function ErrorResponse(e: Error): Triple {
    Triple(500, PlainText, ["500 Internal Server Error\n\n" + e.message])
  }

  /** `lines.join(sep)` */
  function Join(lines: seq<string>, sep: string): string {
    if |lines| == 0 then ""
    else if |lines| == 1 then lines[0]
    else lines[0] + sep + Join(lines[1..], sep)
  }

  /** log_error: the message, then the backtrace joined by newlines. */
  function ErrorLogLines(e: Error): seq<string> {
    [e.message, Join(e.backtrace, "\n")]
  }

  /** The triple `call` returns for an outcome. */
  function ResponseFor(o: Outcome): Triple {
    match o
    case NotFound(e) => NotFoundResponse(e)
    case Failed(e) => ErrorResponse(e)
    case Responded(t) => t
  }

  /** The lines `call` appends to the error log for an outcome. */
  function LogFor(o: Outcome): seq<string> {
    match o
    case Failed(e) => ErrorLogLines(e)
    case _ => []
  }

  /** The environment the controller is built on: the request's, with the
      resolved route recorded under 'simpler.route'. */
  function RoutedEnv(env: Env, route: Matched): Env {
    env[RouteKey := MatchedRoute(route)]
  }

  /** call: resolve, then build the controller and let it respond. */
  function Dispatch(
    env: Env,
    resolve: Env -> Result<Matched, Error>,
    actions: (string, string) -> seq<Step>,
    c: Collaborators): Outcome
  {
    match resolve(env)
    case Err(e) => Classify(e)
    case Ok(route) =>
      var steps := actions(route.controller, route.action);
      match ResponseOf(Respond(Initial(RoutedEnv(env, route)), route.action, steps, c))
      case Ok(t) => Responded(t)
      case Err(e) => Classify(e)
  }

  // ---------------------------------------------------------------------
  // Properties of the outcome mapping
  // ---------------------------------------------------------------------

  /** A missing route answers 404 in plain text with the router's message,
      logs nothing, and runs no controller: the outcome is the same whatever
      the actions and collaborators are. */
  lemma RouteNotFoundIs404(
    env: Env, resolve: Env -> Result<Matched, Error>,
    actions: (string, string) -> seq<Step>, c: Collaborators,
    otherActions: (string, string) -> seq<Step>, other: Collaborators)
    requires resolve(env).Err? && resolve(env).error.kind.RouteNotFound?
    ensures ResponseFor(Dispatch(env, resolve, actions, c))
         == Triple(404, map["Content-Type" := "text/plain"], ["404 Not Found\n\n" + resolve(env).error.message])
    ensures LogFor(Dispatch(env, resolve, actions, c)) == []
    ensures Dispatch(env, resolve, actions, c) == Dispatch(env, resolve, otherActions, other)
  {
  }

  /** Every other error answers 500 in plain text with its message, and its
      message and backtrace go to the log. */
  lemma OtherErrorIs500(e: Error)
    requires !e.kind.RouteNotFound?
    ensures ResponseFor(Classify(e))
         == Triple(500, map["Content-Type" := "text/plain"], ["500 Internal Server Error\n\n" + e.message])
    ensures LogFor(Classify(e)) == [e.message, Join(e.backtrace, "\n")]
  {
  }

  /** The response to an error does not depend on its backtrace, which only
      reaches the log. */
  lemma BacktraceNeverInResponse(e: Error, trace: seq<string>)
    ensures ResponseFor(Classify(e)) == ResponseFor(Classify(e.(backtrace := trace)))
  {
  }

  /** A second render inside the action becomes a logged 500. */
  lemma DoubleRenderIs500(
    env: Env, resolve: Env -> Result<Matched, Error>,
    actions: (string, string) -> seq<Step>, c: Collaborators, a: Value, b: Value)
    requires resolve(env).Ok?
    requires actions(resolve(env).value.controller, resolve(env).value.action) == [CallRender(a), CallRender(b)]
    ensures ResponseFor(Dispatch(env, resolve, actions, c))
         == Triple(500, map["Content-Type" := "text/plain"],
                   ["500 Internal Server Error\n\n" + DoubleRenderMessage])
    ensures LogFor(Dispatch(env, resolve, actions, c)) == [DoubleRenderMessage, ""]
  {
    var route := resolve(env).value;
    RenderTwiceRaises(AfterDefaultHeaders(AfterRequestContext(Initial(RoutedEnv(env, route)), route.action)), a, [], b, c);
    assert [CallRender(a)] + [] + [CallRender(b)] == [CallRender(a), CallRender(b)];
    assert Dispatch(env, resolve, actions, c) == Failed(DoubleRenderError);
  }

  /** A successful request returns the controller's response, which was
      built on the environment holding the route and has exactly one body
      chunk. */
  lemma RespondedIsControllerResponse(
    env: Env, resolve: Env -> Result<Matched, Error>,
    actions: (string, string) -> seq<Step>, c: Collaborators)
    requires Dispatch(env, resolve, actions, c).Responded?
    ensures resolve(env).Ok?
    ensures var route := resolve(env).value;
      Dispatch(env, resolve, actions, c).triple
        == ResponseOf(Respond(Initial(RoutedEnv(env, route)), route.action, actions(route.controller, route.action), c)).value
    ensures |Dispatch(env, resolve, actions, c).triple.body| == 1
  {
    var route := resolve(env).value;
    RespondCommitsOnce(Initial(RoutedEnv(env, route)), route.action, actions(route.controller, route.action), c);
  }

  /** Every response `call` returns names its Content-Type. */
  lemma EveryResponseHasContentType(
    env: Env, resolve: Env -> Result<Matched, Error>,
    actions: (string, string) -> seq<Step>, c: Collaborators)
    ensures ContentTypeHeader in ResponseFor(Dispatch(env, resolve, actions, c)).headers
  {
    if resolve(env).Ok? {
      var route := resolve(env).value;
      var steps := actions(route.controller, route.action);
      var s := Initial(RoutedEnv(env, route));
      if ResponseOf(Respond(s, route.action, steps, c)).Ok? {
        RespondHasContentType(s, route.action, steps, c);
      }
    }
  }

  /** The controller sees the route's parameters, and they win over request
      parameters of the same name. */
  lemma ControllerSeesRouteParams(env: Env, route: Matched, c: Collaborators)
    ensures RouteParamsOf(RoutedEnv(env, route)) == route.params
    ensures var p := MergeParams(c.requestParams(RoutedEnv(env, route)), RouteParamsOf(RoutedEnv(env, route)));
      forall k :: k in route.params ==> k in p && p[k] == route.params[k]
  {
  }

  // ---------------------------------------------------------------------
  // Building the middleware stack
  // ---------------------------------------------------------------------

  /** What `Rack::Builder#use` is handed as its middleware: a class, on which
      `to_app` later calls `new(app, *args)`, or a Proc, which has no `new`. */
  datatype Usable = MiddlewareClass(name: string) | WrapperProc(wraps: Middleware)

  /** What `Rack::Builder#to_app` raises when it calls `new` on a Proc. */
  const NoNewOnProc := Error(OtherError("NoMethodError"), "undefined method 'new' for an instance of Proc", [])

  /** What `Rack::Builder#to_app` raises when nothing was given to `run`. */
  const MissingRun := Error(OtherError("RuntimeError"), "missing run or map statement", [])

  /** Rack::Builder#to_app's `new` calls, last registered first: the layers
      outermost first, or the error of a Proc among the entries. */
  function Instantiate(uses: seq<(Usable, seq<Value>)>): (r: Result<seq<Middleware>, Error>)
    ensures r.Ok? <==> forall i :: 0 <= i < |uses| ==> uses[i].0.MiddlewareClass?
    ensures r.Ok? ==> |r.value| == |uses|
    ensures r.Ok? ==> forall i :: 0 <= i < |uses| ==> r.value[i] == Middleware(uses[i].0.name, uses[i].1)
    ensures r.Err? ==> r.error == NoNewOnProc
    decreases |uses|
  {
    if |uses| == 0 then Ok([])
    else
      var n := |uses| - 1;
      match uses[n].0
      case WrapperProc(_) => Err(NoNewOnProc)
      case MiddlewareClass(name) =>
        match Instantiate(uses[..n])
        case Err(e) => Err(e)
        case Ok(layers) => Ok(layers + [Middleware(name, uses[n].1)])
  }

  /** The builder entries `apply_middleware` makes as written: each stored
      proc itself, with no arguments. */
  function ProcUses(ms: seq<Middleware>): (uses: seq<(Usable, seq<Value>)>)
    ensures |uses| == |ms|
    ensures forall i :: 0 <= i < |ms| ==> uses[i] == (WrapperProc(ms[i]), [])
  {
    if |ms| == 0 then [] else ProcUses(ms[..|ms| - 1]) + [(WrapperProc(ms[|ms| - 1]), [])]
  }

  /** The builder entries of the corrected `apply_middleware`: each class
      with its own arguments. */
  function ClassUses(ms: seq<Middleware>): (uses: seq<(Usable, seq<Value>)>)
    ensures |uses| == |ms|
    ensures forall i :: 0 <= i < |ms| ==> uses[i] == (MiddlewareClass(ms[i].name), ms[i].args)
  {
    if |ms| == 0 then [] else ClassUses(ms[..|ms| - 1]) + [(MiddlewareClass(ms[|ms| - 1].name), ms[|ms| - 1].args)]
  }

  /** As written, building the stack fails as soon as one middleware is
      registered: the builder calls `new` on the stored proc. */
  lemma AsWrittenToAppFails(ms: seq<Middleware>)
    requires |ms| > 0
    ensures Instantiate(ProcUses(ms)) == Err(NoNewOnProc)
  {
    assert !ProcUses(ms)[0].0.MiddlewareClass?;
  }

  /** The application's own registration, `use Simpler::Middleware::Logger`,
      is such a case. */
  lemma LoggerRegistrationBreaksToApp()
    ensures Instantiate(ProcUses([Middleware("Simpler::Middleware::Logger", [])])).Err?
  {
    AsWrittenToAppFails([Middleware("Simpler::Middleware::Logger", [])]);
  }

  /** Corrected: handing the builder each class with its arguments builds
      exactly the registered middleware, in registration order. */
  lemma ClassUsesInstantiate(ms: seq<Middleware>)
    ensures Instantiate(ClassUses(ms)) == Ok(ms)
  {
    var r := Instantiate(ClassUses(ms));
    assert r.Ok?;
    assert r.value == ms;
  }

  // ---------------------------------------------------------------------
  // Objects
  // ---------------------------------------------------------------------

  /** The application wrapped in its middleware, as Rack::Builder#to_app
      returns it; `layers` lists the middleware outermost first. */
  class Stack {
    const layers: seq<Middleware>
    const inner: Application

    constructor (layers: seq<Middleware>, inner: Application)
      ensures this.layers == layers && this.inner == inner
    {
      this.layers := layers;
      this.inner := inner;
    }
  }

  /** Rack::Builder, as far as `to_app` uses it: it records each middleware
      with its arguments, and the application to run innermost. */
  class Builder {
    var uses: seq<(Usable, seq<Value>)>
    var target: Application?

    constructor ()
      ensures uses == [] && target == null
    {
      uses := [];
      target := null;
    }

    /** use(middleware, *args) */
    method Use(u: Usable, args: seq<Value>)
      modifies this`uses
      ensures uses == old(uses) + [(u, args)]
    {
      uses := uses + [(u, args)];
    }

    /** run(app) */
    method Run(app: Application)
      modifies this`target
      ensures target == app
    {
      target := app;
    }

    /** to_app: fails without a `run` or when a `new` fails; otherwise the
        application wrapped in the instantiated middleware. */
    method ToApp() returns (r: Result<Stack, Error>)
      ensures target == null ==> r == Err(MissingRun)
      ensures target != null && Instantiate(uses).Err? ==> r == Err(Instantiate(uses).error)
      ensures target != null && Instantiate(uses).Ok? ==>
        r.Ok? && fresh(r.value) && r.value.layers == Instantiate(uses).value && r.value.inner == target
    {
      if target == null {
        return Err(MissingRun);
      }
      var layers := Instantiate(uses);
      if layers.Err? {
        return Err(layers.error);
      }
      var stack := new Stack(layers.value, target);
      return Ok(stack);
    }
  }

  class Application {
    const resolve: Env -> Result<Matched, Error>   // router.route_for
    const actions: (string, string) -> seq<Step>   // the controllers' actions
    const collab: Collaborators
    var middleware: seq<Middleware>
    var db: Option<string>
    var app: Stack?                                // @app, built once
    var errorLog: seq<string>                      // log/errors.log

    constructor (resolve: Env -> Result<Matched, Error>, actions: (string, string) -> seq<Step>, collab: Collaborators)
      ensures this.resolve == resolve && this.actions == actions && this.collab == collab
      ensures middleware == [] && db == None && app == null && errorLog == []
    {
      this.resolve := resolve;
      this.actions := actions;
      this.collab := collab;
      middleware := [];
      db := None;
      app := null;
      errorLog := [];
    }

    /** call: the outcome decides the triple and the log lines. */
    method Call(env: Env) returns (r: Triple)
      modifies this`errorLog
      ensures r == ResponseFor(Dispatch(env, resolve, actions, collab))
      ensures errorLog == old(errorLog) + LogFor(Dispatch(env, resolve, actions, collab))
    {
      var resolved := resolve(env);
      if resolved.Err? {
        r := Rescue(resolved.error);
        return;
      }
      var route := resolved.value;
      var controller := new Controller(RoutedEnv(env, route), collab);
      var result := controller.MakeResponse(route.action, actions(route.controller, route.action));
      match result {
        case Ok(t) => r := t;
        case Err(e) => r := Rescue(e);
      }
    }

    /** The two rescue clauses of `call`. */
    method Rescue(e: Error) returns (r: Triple)
      modifies this`errorLog
      ensures r == ResponseFor(Classify(e))
      ensures errorLog == old(errorLog) + LogFor(Classify(e))
    {
      if e.kind.RouteNotFound? {
        r := NotFoundResponse(e);
      } else {
        r := MakeErrorResponse(e);
      }
    }

    method MakeErrorResponse(e: Error) returns (r: Triple)
      modifies this`errorLog
      ensures r == ErrorResponse(e)
      ensures errorLog == old(errorLog) + ErrorLogLines(e)
    {
      LogError(e);
      r := ErrorResponse(e);
    }

    method LogError(e: Error)
      modifies this`errorLog
      ensures errorLog == old(errorLog) + ErrorLogLines(e)
    {
      errorLog := errorLog + [e.message, Join(e.backtrace, "\n")];
    }

    /** use: one more entry at the end. */
    method Use(name: string, args: seq<Value>)
      modifies this`middleware
      ensures middleware == old(middleware) + [Middleware(name, args)]
    {
      middleware := middleware + [Middleware(name, args)];
    }

    /** to_app as written: a failed build leaves `@app` unset, so every
        call tries again; it succeeds only with no middleware registered. */
    method ToAppAsWritten() returns (r: Result<Stack, Error>)
      modifies this`app
      ensures old(app) != null ==> r.Ok? && r.value == old(app) && app == old(app)
      ensures old(app) == null && middleware != [] ==> r == Err(NoNewOnProc) && app == null
      ensures old(app) == null && middleware == [] ==>
        r.Ok? && fresh(r.value) && r.value.layers == [] && r.value.inner == this && app == r.value
    {
      if app != null {
        var built: Stack := app;
        return Ok(built);
      }
      var builder := new Builder();
      ApplyMiddlewareAsWritten(builder);
      builder.Run(this);
      r := builder.ToApp();
      if |middleware| > 0 {
        AsWrittenToAppFails(middleware);
      }
      if r.Ok? {
        app := r.value;
      }
    }

    /** apply_middleware as written: each stored proc goes to `use` itself. */
    method ApplyMiddlewareAsWritten(builder: Builder)
      modifies builder`uses
      ensures builder.uses == old(builder.uses) + ProcUses(middleware)
    {
      for i := 0 to |middleware|
        invariant builder.uses == old(builder.uses) + ProcUses(middleware[..i])
      {
        assert middleware[..i + 1][..i] == middleware[..i];
        builder.Use(WrapperProc(middleware[i]), []);
      }
      assert middleware[..|middleware|] == middleware;
    }

    /** to_app, corrected: built on the first call from the middleware
        registered so far, then the same object every time. */
    method ToApp() returns (a: Stack)
      modifies this`app
      ensures old(app) != null ==> a == old(app)
      ensures old(app) == null ==> fresh(a) && a.layers == middleware && a.inner == this
      ensures app == a
    {
      if app != null {
        return app;
      }
      var builder := new Builder();
      ApplyMiddleware(builder);
      builder.Run(this);
      ClassUsesInstantiate(middleware);
      var r := builder.ToApp();
      a := r.value;
      app := a;
    }

    /** apply_middleware, corrected: each class goes to `use` with its own
        arguments, in registration order. */
    method ApplyMiddleware(builder: Builder)
      modifies builder`uses
      ensures builder.uses == old(builder.uses) + ClassUses(middleware)
    {
      for i := 0 to |middleware|
        invariant builder.uses == old(builder.uses) + ClassUses(middleware[..i])
      {
        assert middleware[..i + 1][..i] == middleware[..i];
        builder.Use(MiddlewareClass(middleware[i].name), middleware[i].args);
      }
      assert middleware[..|middleware|] == middleware;
    }
  }
}

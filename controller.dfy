/**
  The controller's response contract (lib/simpler/controller.rb).

  A controller owns one response. Before the action runs the Content-Type is
  HTML; `render` may be called once, and writes the body, choosing the
  Content-Type from the render kind; a second `render` raises
  DoubleRenderError; if the action never renders, the template is rendered
  once after it returns.

  The state of a controller is described by the value `State`, and each
  private method of the source by a function from the old state to the new
  one (`AfterRender`, `AfterWrite`, ...). The class `Controller` holds the
  same state in mutable fields, and each of its methods is proved to perform
  exactly that transition. The action itself, which the source calls with
  `send(action)`, is a script of the calls it makes on its controller.
 */
module Controllers {
  import opened Wrappers
  import opened Http

  const DoubleRenderMessage := "Cannot render or redirect more than once per action"

  /** CONTENT_TYPES: render kind to Content-Type. */
  const ContentTypes: map<string, string> :=
    map["plain" := "text/plain", "json" := "application/json",
        "xml" := "application/xml", "html" := "text/html"]

  const DoubleRenderError := Error(DoubleRender, DoubleRenderMessage, [])

  /** The code the controller calls but that is not part of this model:
      the view renderer, serialisation, `inspect`-style `to_s` of non-text
      values, and the query/form parameters Rack parses from the request. */
  datatype Collaborators = Collaborators(
    view: Env -> string,
    toJson: Value -> string,
    toXml: Value -> string,
    inspect: Value -> string,
    requestParams: Env -> map<string, string>)

  /** One call an action makes on its controller. */
  datatype Step =
    | CallRender(arg: Value)  // render(template_or_options)
    | CallStatus(code: int)   // status(code)
    | Raise(error: Error)     // the action raises

  /** Everything of a controller that the request path reads or writes. */
  datatype State = State(
    env: Env,
    status: int,
    headers: map<string, string>,
    body: seq<string>,
    performed: bool,                          // @render_performed
    options: Option<seq<(Value, Value)>>)     // @render_options

  /** A state together with the exception raised on the way to it, if any. */
  datatype Exec = Exec(state: State, raised: Option<Error>)

  /** A new controller: Rack's default status 200, no headers, no body. */
  function Initial(env: Env): State {
    State(env, 200, map[], [], false, None)
  }

  /** The single-commit invariant: the body has been written exactly once
      when the flag is set, and not at all before. */
  ghost predicate SingleCommit(s: State) {
    if s.performed then |s.body| == 1 else s.body == []
  }

  // ---------------------------------------------------------------------
  // Body formatting
  // ---------------------------------------------------------------------

  /** `to_s`: text is itself, a symbol its name, nil the empty string. */
  function ToS(v: Value, c: Collaborators): string {
    match v
    case Str(s) => s
    case Sym(n) => n
    case Nil => ""
    case _ => c.inspect(v)
  }

  /** format_response_body */
  function FormatResponseBody(kind: string, content: Value, c: Collaborators): string {
    if kind == "json" then c.toJson(content)
    else if kind == "xml" then c.toXml(content)
    else ToS(content, c)
  }

  /** The kind named by the first key of a render hash, when it is one of
      CONTENT_TYPES' symbols. */
  function KnownKind(opts: seq<(Value, Value)>): Option<string> {
    if |opts| > 0 && opts[0].0.Sym? && opts[0].0.name in ContentTypes
    then Some(opts[0].0.name) else None
  }

  /** render_template: the view renders from the request environment. */
  function TemplateBody(s: State, c: Collaborators): string {
    c.view(s.env)
  }

  /** process_render_options: the new headers and the body. */
  function OptionsRendered(opts: seq<(Value, Value)>, s: State, c: Collaborators): (map<string, string>, string) {
    match KnownKind(opts)
    case Some(kind) =>
      (s.headers[ContentTypeHeader := ContentTypes[kind]], FormatResponseBody(kind, opts[0].1, c))
    case None => (s.headers, TemplateBody(s, c))
  }

  /** render_body: the new headers and the body. */
  function BodyRendered(s: State, c: Collaborators): (map<string, string>, string) {
    match s.options
    case Some(opts) => OptionsRendered(opts, s, c)
    case None => (s.headers, TemplateBody(s, c))
  }

  // ---------------------------------------------------------------------
  // Transitions
  // ---------------------------------------------------------------------

  /** set_request_context */
  function AfterRequestContext(s: State, action: string): State {
    s.(env := s.env[ControllerKey := CurrentController][ActionKey := Obj(Sym(action))])
  }

  /** set_default_headers */
  function AfterDefaultHeaders(s: State): State {
    s.(headers := s.headers[ContentTypeHeader := ContentTypes["html"]])
  }

  /** handle_render_options: a String or Symbol names the template, a Hash
      becomes the render options, anything else is ignored. */
  function AfterHandleOptions(s: State, arg: Value): State {
    match arg
    case Str(_) => s.(env := s.env[TemplateKey := Obj(arg)])
    case Sym(_) => s.(env := s.env[TemplateKey := Obj(arg)])
    case Hash(opts) => s.(options := Some(opts))
    case _ => s
  }

  /** write_response: does nothing once a body has been written. */
  function AfterWrite(s: State, c: Collaborators): State {
    if s.performed then s
    else
      var (headers, chunk) := BodyRendered(s, c);
      s.(headers := headers, body := s.body + [chunk], performed := true)
  }

  /** render */
  function AfterRender(s: State, arg: Value, c: Collaborators): Exec {
    if s.performed then Exec(s, Some(DoubleRenderError))
    else Exec(AfterWrite(AfterHandleOptions(s, arg), c), None)
  }

  /** status: only the status changes. */
  function AfterStatus(s: State, code: int): State {
    s.(status := code)
  }

  function AfterStep(s: State, step: Step, c: Collaborators): Exec {
    match step
    case CallRender(arg) => AfterRender(s, arg, c)
    case CallStatus(code) => Exec(AfterStatus(s, code), None)
    case Raise(e) => Exec(s, Some(e))
  }

  /** process_action: the action's calls in order, stopping at the first
      exception. */
  function AfterAction(s: State, steps: seq<Step>, c: Collaborators): Exec
    decreases |steps|
  {
    if |steps| == 0 then Exec(s, None)
    else
      var e := AfterStep(s, steps[0], c);
      if e.raised.Some? then e else AfterAction(e.state, steps[1..], c)
  }

  /** make_response, up to `@response.finish`. */
  function Respond(s: State, action: string, steps: seq<Step>, c: Collaborators): Exec {
    var e := AfterAction(AfterDefaultHeaders(AfterRequestContext(s, action)), steps, c);
    if e.raised.Some? then e else Exec(AfterWrite(e.state, c), None)
  }

  /** `@response.finish` */
  function Finish(s: State): Triple {
    Triple(s.status, s.headers, s.body)
  }

  /** What `make_response` returns or raises. */
  function ResponseOf(e: Exec): Result<Triple, Error> {
    match e.raised
    case Some(err) => Err(err)
    case None => Ok(Finish(e.state))
  }

  // ---------------------------------------------------------------------
  // Properties of the transitions
  // ---------------------------------------------------------------------

  /** An independent account of when an action fails: at its first `Raise`,
      or at a render once a render has happened. */
  function FirstFailure(steps: seq<Step>, rendered: bool): Option<Error> {
    if |steps| == 0 then None
    else match steps[0]
      case CallRender(_) => if rendered then Some(DoubleRenderError) else FirstFailure(steps[1..], true)
      case CallStatus(_) => FirstFailure(steps[1..], rendered)
      case Raise(e) => Some(e)
  }

  lemma {:induction false} AfterActionRaisesFirstFailure(s: State, steps: seq<Step>, c: Collaborators)
    ensures AfterAction(s, steps, c).raised == FirstFailure(steps, s.performed)
    decreases |steps|
  {
    if |steps| > 0 {
      var e := AfterStep(s, steps[0], c);
      if e.raised.None? {
        AfterActionRaisesFirstFailure(e.state, steps[1..], c);
      }
    }
  }

  /** A render once a body is written raises DoubleRenderError and changes nothing. */
  lemma SecondRenderRaises(s: State, arg: Value, c: Collaborators)
    requires s.performed
    ensures AfterRender(s, arg, c) == Exec(s, Some(DoubleRenderError))
  {
  }

  /** An action that renders twice fails with DoubleRenderError, whatever it
      does in between, provided it raises nothing else first. */
  lemma RenderTwiceRaises(s: State, a: Value, between: seq<Step>, b: Value, c: Collaborators)
    requires !s.performed
    requires forall i :: 0 <= i < |between| ==> between[i].CallStatus?
    ensures AfterAction(s, [CallRender(a)] + between + [CallRender(b)], c).raised == Some(DoubleRenderError)
  {
    var steps := [CallRender(a)] + between + [CallRender(b)];
    AfterActionRaisesFirstFailure(s, steps, c);
    assert steps[1..] == between + [CallRender(b)];
    StatusStepsThenRender(between, b);
  }

  lemma {:induction false} StatusStepsThenRender(between: seq<Step>, b: Value)
    requires forall i :: 0 <= i < |between| ==> between[i].CallStatus?
    ensures FirstFailure(between + [CallRender(b)], true) == Some(DoubleRenderError)
  {
    if |between| > 0 {
      assert (between + [CallRender(b)])[1..] == between[1..] + [CallRender(b)];
      StatusStepsThenRender(between[1..], b);
    }
  }

  /** write_response does nothing once the flag is set. */
  lemma WriteAtMostOnce(s: State, c: Collaborators)
    requires s.performed
    ensures AfterWrite(s, c) == s
  {
  }

  /** Every transition keeps the single-commit invariant, and a written body
      stays written. */
  lemma {:induction false} AfterActionKeepsSingleCommit(s: State, steps: seq<Step>, c: Collaborators)
    requires SingleCommit(s)
    ensures SingleCommit(AfterAction(s, steps, c).state)
    ensures s.performed ==> AfterAction(s, steps, c).state.performed
    ensures s.performed ==> AfterAction(s, steps, c).state.body == s.body
    decreases |steps|
  {
    if |steps| > 0 {
      var e := AfterStep(s, steps[0], c);
      assert SingleCommit(e.state);
      if e.raised.None? {
        AfterActionKeepsSingleCommit(e.state, steps[1..], c);
      }
    }
  }

  /** make_response writes exactly one body chunk whenever it returns. */
  lemma RespondCommitsOnce(s: State, action: string, steps: seq<Step>, c: Collaborators)
    requires SingleCommit(s)
    requires ResponseOf(Respond(s, action, steps, c)).Ok?
    ensures |ResponseOf(Respond(s, action, steps, c)).value.body| == 1
    ensures Respond(s, action, steps, c).state.performed
  {
    AfterActionKeepsSingleCommit(AfterDefaultHeaders(AfterRequestContext(s, action)), steps, c);
  }

  /** An action that does not render leaves everything but the status alone. */
  lemma {:induction false} NonRenderingActionKeepsResponse(s: State, steps: seq<Step>, c: Collaborators)
    requires forall i :: 0 <= i < |steps| ==> !steps[i].CallRender?
    ensures var t := AfterAction(s, steps, c).state;
      t.env == s.env && t.headers == s.headers && t.body == s.body &&
      t.performed == s.performed && t.options == s.options
    decreases |steps|
  {
    if |steps| > 0 {
      var e := AfterStep(s, steps[0], c);
      if e.raised.None? {
        NonRenderingActionKeepsResponse(e.state, steps[1..], c);
      }
    }
  }

  /** If the action never renders, make_response renders the template once
      after it, with the default HTML Content-Type. */
  lemma ImplicitRenderAfterAction(env: Env, action: string, steps: seq<Step>, c: Collaborators)
    requires forall i :: 0 <= i < |steps| ==> !steps[i].CallRender?
    requires ResponseOf(Respond(Initial(env), action, steps, c)).Ok?
    ensures var t := ResponseOf(Respond(Initial(env), action, steps, c)).value;
      t.body == [c.view(AfterRequestContext(Initial(env), action).env)] &&
      t.headers == map[ContentTypeHeader := "text/html"]
  {
    NonRenderingActionKeepsResponse(AfterDefaultHeaders(AfterRequestContext(Initial(env), action)), steps, c);
  }

  /** A render hash whose first key is one of CONTENT_TYPES' kinds sets the
      matching Content-Type and formats its value for that kind. */
  lemma RenderKnownKind(s: State, opts: seq<(Value, Value)>, c: Collaborators)
    requires !s.performed
    requires KnownKind(opts).Some?
    ensures var kind := KnownKind(opts).value;
      var t := AfterRender(s, Hash(opts), c);
      t.raised.None? && t.state.performed &&
      t.state.headers == s.headers[ContentTypeHeader := ContentTypes[kind]] &&
      t.state.body == s.body + [FormatResponseBody(kind, opts[0].1, c)]
  {
  }

  /** Any other render hash, the empty one included, falls back to the
      template and leaves the headers as they were. */
  lemma RenderUnknownKindFallsBack(s: State, opts: seq<(Value, Value)>, c: Collaborators)
    requires !s.performed
    requires KnownKind(opts).None?
    ensures var t := AfterRender(s, Hash(opts), c);
      t.raised.None? && t.state.headers == s.headers &&
      t.state.body == s.body + [c.view(s.env)]
  {
  }

  /** A template name is recorded in the environment before the view renders. */
  lemma RenderTemplateName(s: State, name: Value, c: Collaborators)
    requires !s.performed && s.options.None?
    requires name.Str? || name.Sym?
    ensures var t := AfterRender(s, name, c);
      t.raised.None? && t.state.headers == s.headers &&
      t.state.body == s.body + [c.view(s.env[TemplateKey := Obj(name)])]
  {
  }

  /** The concrete render kinds of the demo controller. */
  lemma RenderKindsExamples(s: State, text: string, data: Value, c: Collaborators)
    requires !s.performed
    ensures AfterRender(s, Hash([(Sym("plain"), Str(text))]), c).state.headers[ContentTypeHeader] == "text/plain"
    ensures AfterRender(s, Hash([(Sym("plain"), Str(text))]), c).state.body == s.body + [text]
    ensures AfterRender(s, Hash([(Sym("html"), Str(text))]), c).state.headers[ContentTypeHeader] == "text/html"
    ensures AfterRender(s, Hash([(Sym("json"), data)]), c).state.headers[ContentTypeHeader] == "application/json"
    ensures AfterRender(s, Hash([(Sym("json"), data)]), c).state.body == s.body + [c.toJson(data)]
    ensures AfterRender(s, Hash([(Sym("xml"), data)]), c).state.headers[ContentTypeHeader] == "application/xml"
    ensures AfterRender(s, Hash([(Sym("xml"), data)]), c).state.body == s.body + [c.toXml(data)]
    ensures AfterRender(s, Hash([(Str("plain"), Str(text))]), c).state.body == s.body + [c.view(s.env)]
  {
    assert KnownKind([(Sym("plain"), Str(text))]) == Some("plain");
    RenderKnownKind(s, [(Sym("plain"), Str(text))], c);
    assert KnownKind([(Sym("html"), Str(text))]) == Some("html");
    RenderKnownKind(s, [(Sym("html"), Str(text))], c);
    assert KnownKind([(Sym("json"), data)]) == Some("json");
    RenderKnownKind(s, [(Sym("json"), data)], c);
    assert KnownKind([(Sym("xml"), data)]) == Some("xml");
    RenderKnownKind(s, [(Sym("xml"), data)], c);
    RenderUnknownKindFallsBack(s, [(Str("plain"), Str(text))], c);
  }

  /** status(code) is not a render: an action that only sets statuses keeps
      the flag and body, and its last status wins. */
  lemma {:induction false} StatusIsNotARender(s: State, codes: seq<int>, c: Collaborators)
    requires |codes| > 0
    ensures var steps := seq(|codes|, i requires 0 <= i < |codes| => CallStatus(codes[i]));
      AfterAction(s, steps, c) == Exec(s.(status := codes[|codes| - 1]), None)
    decreases |codes|
  {
    var steps := seq(|codes|, i requires 0 <= i < |codes| => CallStatus(codes[i]));
    if |codes| > 1 {
      StatusIsNotARender(s.(status := codes[0]), codes[1..], c);
      assert steps[1..] == seq(|codes[1..]|, i requires 0 <= i < |codes[1..]| => CallStatus(codes[1..][i]));
    }
  }

  /** Every response make_response returns carries a Content-Type. */
  lemma {:induction false} AfterActionKeepsContentType(s: State, steps: seq<Step>, c: Collaborators)
    requires ContentTypeHeader in s.headers
    ensures ContentTypeHeader in AfterAction(s, steps, c).state.headers
    decreases |steps|
  {
    if |steps| > 0 {
      var e := AfterStep(s, steps[0], c);
      if e.raised.None? {
        AfterActionKeepsContentType(e.state, steps[1..], c);
      }
    }
  }

  lemma RespondHasContentType(s: State, action: string, steps: seq<Step>, c: Collaborators)
    requires ResponseOf(Respond(s, action, steps, c)).Ok?
    ensures ContentTypeHeader in ResponseOf(Respond(s, action, steps, c)).value.headers
  {
    AfterActionKeepsContentType(AfterDefaultHeaders(AfterRequestContext(s, action)), steps, c);
  }

  // ---------------------------------------------------------------------
  // Parameters
  // ---------------------------------------------------------------------

  /** The parameters of the route stored in the environment, or none. */
  function RouteParamsOf(env: Env): map<string, string> {
    if RouteKey in env && env[RouteKey].MatchedRoute? then env[RouteKey].route.params else map[]
  }

  /** `request_params.merge(route_params)`: a route parameter wins over a
      request parameter of the same name. */
  function MergeParams(request: map<string, string>, route: map<string, string>): (r: map<string, string>)
    ensures r.Keys == request.Keys + route.Keys
    ensures forall k :: k in route ==> r[k] == route[k]
    ensures forall k :: k in request && k !in route ==> r[k] == request[k]
  {
    request + route
  }

  // ---------------------------------------------------------------------
  // The controller object
  // ---------------------------------------------------------------------

  class Controller {
    const collab: Collaborators
    var env: Env                                   // @request.env
    var status: int                                // @response.status
    var headers: map<string, string>               // @response.headers
    var body: seq<string>                          // @response's body chunks
    var renderPerformed: bool
    var renderOptions: Option<seq<(Value, Value)>>
    var paramsCache: Option<map<string, string>>   // @params

    ghost function Snapshot(): State
      reads this
    {
      State(env, status, headers, body, renderPerformed, renderOptions)
    }

    constructor (env: Env, collab: Collaborators)
      ensures Snapshot() == Initial(env) && SingleCommit(Snapshot())
      ensures this.collab == collab && paramsCache == None
    {
      this.collab := collab;
      this.env := env;
      status := 200;
      headers := map[];
      body := [];
      renderPerformed := false;
      renderOptions := None;
      paramsCache := None;
    }

    /** make_response: returns the finished response, or the exception the
        action raised. */
    method MakeResponse(action: string, steps: seq<Step>) returns (r: Result<Triple, Error>)
      modifies this`env, this`status, this`headers, this`body, this`renderPerformed, this`renderOptions
      ensures Snapshot() == Respond(old(Snapshot()), action, steps, collab).state
      ensures r == ResponseOf(Respond(old(Snapshot()), action, steps, collab))
    {
      SetRequestContext(action);
      SetDefaultHeaders();
      var raised := ProcessAction(steps);
      if raised.Some? {
        return Err(raised.value);
      }
      EnsureResponseWritten();
      r := Ok(Triple(status, headers, body));
    }

    /** params: computed once from the request and the matched route, then
        kept. */
    method Params() returns (p: map<string, string>)
      modifies this`paramsCache
      ensures old(paramsCache).Some? ==> p == old(paramsCache).value
      ensures old(paramsCache).None? ==> p == MergeParams(collab.requestParams(env), RouteParamsOf(env))
      ensures paramsCache == Some(p)
    {
      if paramsCache.None? {
        paramsCache := Some(MergeParams(collab.requestParams(env), RouteParamsOf(env)));
      }
      p := paramsCache.value;
    }

    /** render */
    method Render(arg: Value) returns (raised: Option<Error>)
      modifies this`env, this`headers, this`body, this`renderPerformed, this`renderOptions
      ensures Snapshot() == AfterRender(old(Snapshot()), arg, collab).state
      ensures raised == AfterRender(old(Snapshot()), arg, collab).raised
    {
      raised := EnsureNotRendered();
      if raised.Some? {
        return;
      }
      HandleRenderOptions(arg);
      WriteResponse();
    }

    /** status */
    method Status(code: int)
      modifies this`status
      ensures Snapshot() == AfterStatus(old(Snapshot()), code)
    {
      status := code;
    }

    method SetRequestContext(action: string)
      modifies this`env
      ensures Snapshot() == AfterRequestContext(old(Snapshot()), action)
    {
      env := env[ControllerKey := CurrentController][ActionKey := Obj(Sym(action))];
    }

    method SetDefaultHeaders()
      modifies this`headers
      ensures Snapshot() == AfterDefaultHeaders(old(Snapshot()))
    {
      headers := headers[ContentTypeHeader := ContentTypes["html"]];
    }

    /** process_action: runs the action's calls in order. */
    method ProcessAction(steps: seq<Step>) returns (raised: Option<Error>)
      modifies this`env, this`status, this`headers, this`body, this`renderPerformed, this`renderOptions
      ensures Snapshot() == AfterAction(old(Snapshot()), steps, collab).state
      ensures raised == AfterAction(old(Snapshot()), steps, collab).raised
    {
      var i := 0;
      while i < |steps|
        invariant 0 <= i <= |steps|
        invariant AfterAction(old(Snapshot()), steps, collab) == AfterAction(Snapshot(), steps[i..], collab)
      {
        assert steps[i..][1..] == steps[i + 1..];
        match steps[i] {
          case CallRender(arg) =>
            raised := Render(arg);
            if raised.Some? {
              return;
            }
          case CallStatus(code) =>
            Status(code);
          case Raise(e) =>
            raised := Some(e);
            return;
        }
        i := i + 1;
      }
      raised := None;
    }

    method EnsureResponseWritten()
      modifies this`headers, this`body, this`renderPerformed
      ensures Snapshot() == AfterWrite(old(Snapshot()), collab)
    {
      if !renderPerformed {
        WriteResponse();
      }
    }

    method EnsureNotRendered() returns (raised: Option<Error>)
      ensures raised == (if renderPerformed then Some(DoubleRenderError) else None)
    {
      raised := if renderPerformed then Some(DoubleRenderError) else None;
    }

    method HandleRenderOptions(arg: Value)
      modifies this`env, this`renderOptions
      ensures Snapshot() == AfterHandleOptions(old(Snapshot()), arg)
    {
      match arg
      case Str(_) => env := env[TemplateKey := Obj(arg)];
      case Sym(_) => env := env[TemplateKey := Obj(arg)];
      case Hash(opts) => renderOptions := Some(opts);
      case _ =>
    }

    method WriteResponse()
      modifies this`headers, this`body, this`renderPerformed
      ensures Snapshot() == AfterWrite(old(Snapshot()), collab)
    {
      if renderPerformed {
        return;
      }
      var chunk := RenderBody();
      body := body + [chunk];
      renderPerformed := true;
    }

    method RenderBody() returns (chunk: string)
      modifies this`headers
      ensures (headers, chunk) == BodyRendered(old(Snapshot()), collab)
    {
      if renderOptions.Some? {
        chunk := ProcessRenderOptions();
      } else {
        chunk := collab.view(env);
      }
    }

    method ProcessRenderOptions() returns (chunk: string)
      requires renderOptions.Some?
      modifies this`headers
      ensures (headers, chunk) == OptionsRendered(renderOptions.value, old(Snapshot()), collab)
    {
      var opts := renderOptions.value;
      if |opts| == 0 || !opts[0].0.Sym? || opts[0].0.name !in ContentTypes {
        return collab.view(env);
      }
      var kind := opts[0].0.name;
      headers := headers[ContentTypeHeader := ContentTypes[kind]];
      chunk := FormatResponseBody(kind, opts[0].1, collab);
    }
  }
}

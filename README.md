# Simpler request path, modelled in Dafny

This project models the request path of the Simpler web framework. It covers three parts.

- **Route matching** (`Simpler::Router::Route`, module `Router`). A path template such as `/tests/:id` is compiled into a list of tokens. Each token is a literal character or a named parameter. A parameter stands for one or more characters, none of them `/`. `MatchTokens` matches a whole path against that list. It is proved sound and complete for the set of paths the source's anchored regular expression accepts, which is `Fill(tokens, segments)`. From this follow the properties below:
  - anchoring;
  - single-segment capture;
  - "a parameter never crosses `/`";
  - the round trip between extracted parameters and the matched path, in both directions.

  The `Route` class keeps its one mutable field, `params`. `Match` overwrites it only on success.
- **The controller's response contract** (`Simpler::Controller`, module `Controllers`).
  - The controller state is a value, `State`. Each private method of the source is a transition function on it: `AfterRender`, `AfterWrite`, `AfterAction`, `Respond`, and so on.
  - The class `Controller` keeps the same state in mutable fields. Each of its methods is proved to perform exactly its transition.
  - Proved properties:
    - the single-commit invariant;
    - DoubleRenderError on a second render;
    - the implicit template render after an action that does not render;
    - the Content-Type chosen by each render kind;
    - `status` is not a render;
    - route parameters override request parameters.
  - An action is modelled as the script of calls it makes on its controller (`render`, `status`, or raising). `ProcessAction` runs that script in place of the source's `send(action)`.
- **Dispatch** (`Simpler::Application`, module `Simpler`). `call` ends in one of three outcomes: a missing route, any other error, or the controller's response. That choice is the pure function `Dispatch`. The returned triple and the error-log lines are pure functions of the outcome. The `Application` class keeps these in place:
  - the middleware list, which only ever grows at its end;
  - the memoised `to_app` result, built by a stand-in for `Rack::Builder`;
  - the error log.

Collaborators the source calls but that are not part of this model are parameters of the model:
- the router's lookup, `resolve`;
- the controllers' actions, `actions`;
- the view renderer, `to_json`, `to_xml`, `inspect`, and the request parameters Rack parses, all in `Collaborators`.

Notes on the source:
- The template compiler does no checking of its own. A `:` followed by `/` or by the end of the template stays literal text. Only Ruby's regular-expression compiler rejects a template, raising RegexpError when a parameter name is not a valid group name.
- `match?` has a side effect: it stores the captured parameters in the route.
- The 404 message is whatever the router's exception carries.
- `call` itself runs no middleware. Middleware only wraps the application through `to_app`.
- As written, `to_app` fails whenever a middleware is registered (see "## Findings"). The model keeps that version and a corrected one, which the rest of the model uses.

## Model

| member | source | states |
|---|---|---|
| `Router.SegmentLength` | lib/simpler/router/route.rb:5 | the extent of `[^/]+`: every character before the result is not `/`, and the one at the result, if any, is `/` |
| `Router.Tokenize` | lib/simpler/router/route.rb:39-44 | the compiled template: scanning left to right, a `:` followed by at least one non-`/` character starts a parameter named by the rest of that segment; every other character is literal. Its properties are stated by the three lemmas below |
| `Router.TokenizeRoundTrip` | lib/simpler/router/route.rb:39-46 | compiling a template keeps all of its text: the template is read back from its tokens unchanged |
| `Router.TokenizeWellFormed` | lib/simpler/router/route.rb:4-5 | every compiled parameter has a non-empty name without `/` and is followed by a literal `/` or by the end of the template |
| `Router.TokenizeColonsLiteral` | lib/simpler/router/route.rb:4 | a `:` stays literal only just before a `/` or at the end, where `:[^/]+` cannot match; with the two lemmas above this determines the token list as gsub's leftmost, longest split |
| `Router.Fill` | lib/simpler/router/route.rb:42-45 | the language of the compiled pattern: the template with a segment put in place of each parameter (stated against the matcher by `MatchSound` and `MatchComplete`) |
| `Router.MatchTokens` | lib/simpler/router/route.rb:35-37 | a successful match yields one capture per template parameter, each non-empty and free of `/` |
| `Router.MatchSound` | lib/simpler/router/route.rb:40-45 | anchoring: a match consumes the whole path, which equals the template with the captures put in place of its parameters |
| `Router.MatchComplete` | lib/simpler/router/route.rb:40-45 | every path the compiled pattern describes (any `/`-free non-empty segments put in the parameters) is matched, with exactly those segments |
| `Router.SlashesOfFill` | lib/simpler/router/route.rb:5 | a path built from a template with `/`-free segments has exactly as many `/` as the template's literal text |
| `Router.MatchedSlashes` | lib/simpler/router/route.rb:45 | a matched path has exactly as many `/` as the template's literal text |
| `Router.AnchoredAgainstExtraSegments` | lib/simpler/router/route.rb:45 | if a path matches, that path followed by anything containing `/` does not (so `/tests/42/extra` fails where `/tests/42` matches) |
| `Router.ExtractParamsLookup` | lib/simpler/router/route.rb:48-52 | with distinct names, the parameter map's keys are exactly the template's parameter names, each mapped to its own raw capture; no names gives the empty map |
| `Router.ExtractParams` | lib/simpler/router/route.rb:48-52 | `names.zip(captures).to_h`, a later pair winning; stated by `ExtractParamsLookup` |
| `Router.MatchPath` | lib/simpler/router/route.rb:21-22 | a match turned into the parameter map, or no match; stated by `ParamsRoundTrip` and `SubstituteMatches` |
| `Router.ParamsRoundTrip` | lib/simpler/router/route.rb:40-52 | substituting the extracted parameters back into the template reproduces the matched path |
| `Router.SubstituteMatches` | lib/simpler/router/route.rb:40-52 | conversely, substituting any `/`-free non-empty values for the parameters gives a path that matches and yields back those values |
| `Router.Route.constructor` | lib/simpler/router/route.rb:9-16 | method, path, controller and action are stored, the template is compiled into a well-formed pattern with distinct names, and `params` starts empty |
| `Router.Route.Match` | lib/simpler/router/route.rb:18-27 | true exactly when the method is equal and the whole path matches; on success `params` is the captured map, on either failure `params` is unchanged |
| `Router.TestsIdCompiles` | config/routes.rb:7 | `/tests/:id` compiles to the literal `/tests/` followed by the parameter `id` |
| `Router.TestsIdTakesOneSegment` | config/routes.rb:7 | `/tests/:id` matches `/tests/42` with `{"id" => "42"}` |
| `Router.TestsIdRefusesEmpty` | lib/simpler/router/route.rb:5 | `/tests/:id` does not match `/tests/`: a parameter needs at least one character |
| `Router.TestsIdRefusesExtra` | lib/simpler/router/route.rb:45 | `/tests/:id` does not match `/tests/42/extra` |
| `Router.TestsIdRefusesTwoSegments` | lib/simpler/router/route.rb:5 | `/tests/:id` does not match `/tests/a/b`: a parameter never takes a `/` |
| `Controllers.AfterActionRaisesFirstFailure` | lib/simpler/controller.rb:42-46 | an action raises exactly what an independent scan predicts: its first own exception, or DoubleRenderError at the first render after a render |
| `Controllers.ContentTypes` | lib/simpler/controller.rb:7-12 | the four render kinds and their Content-Types; used by `RenderKnownKind` and `RenderKindsExamples` |
| `Controllers.Initial` | lib/simpler/controller.rb:16-21 | a new controller's state: status 200, no headers, no body, flag unset, no options |
| `Controllers.AfterRequestContext` | lib/simpler/controller.rb:62-65 | the environment with the controller and the action symbol recorded |
| `Controllers.AfterDefaultHeaders` | lib/simpler/controller.rb:67-69 | the headers with Content-Type set to HTML; stated by `RespondHasContentType` |
| `Controllers.AfterHandleOptions` | lib/simpler/controller.rb:83-90 | String/Symbol into `simpler.template`, Hash into the options, anything else ignored; stated by `RenderTemplateName` and `RenderKnownKind` |
| `Controllers.AfterWrite` | lib/simpler/controller.rb:92-98 | write once: no change once the flag is set; stated by `WriteAtMostOnce` and `AfterActionKeepsSingleCommit` |
| `Controllers.AfterRender` | lib/simpler/controller.rb:42-46 | render: DoubleRenderError when rendered, else handle the argument and write; stated by `SecondRenderRaises` and the render-kind lemmas |
| `Controllers.AfterStatus` | lib/simpler/controller.rb:48-50 | only the status changes; stated by `StatusIsNotARender` |
| `Controllers.AfterAction` | lib/simpler/controller.rb:71-73 | the action's calls in order up to the first exception; stated by `AfterActionRaisesFirstFailure` and the invariant lemmas |
| `Controllers.Respond` | lib/simpler/controller.rb:23-29 | make_response up to `finish`; stated by `RespondCommitsOnce`, `ImplicitRenderAfterAction` and `RespondHasContentType` |
| `Controllers.ResponseOf` | lib/simpler/controller.rb:23-30 | the triple of a finished response, or the exception raised; stated by `RespondCommitsOnce` |
| `Controllers.ToS` | lib/simpler/controller.rb:124 | `to_s` of a render value: text is itself, a symbol its name, nil empty, anything else the `inspect` collaborator |
| `Controllers.FormatResponseBody` | lib/simpler/controller.rb:120-126 | `to_json` for json, `to_xml` for xml, `to_s` otherwise; stated by `RenderKindsExamples` |
| `Controllers.KnownKind` | lib/simpler/controller.rb:112-113 | the first key of a render hash when it is one of CONTENT_TYPES' symbols; stated by `RenderKnownKind` and `RenderUnknownKindFallsBack` |
| `Controllers.OptionsRendered` | lib/simpler/controller.rb:112-118 | the headers and body of process_render_options; stated by `RenderKnownKind` and `RenderUnknownKindFallsBack` |
| `Controllers.BodyRendered` | lib/simpler/controller.rb:100-106 | the options path when options exist, the template otherwise |
| `Controllers.TemplateBody` | lib/simpler/controller.rb:108-110 | the view's rendering of the request environment |
| `Controllers.RouteParamsOf` | lib/simpler/controller.rb:37 | the parameters of the route recorded under `simpler.route`, or none; stated by `ControllerSeesRouteParams` |
| `Controllers.SecondRenderRaises` | lib/simpler/controller.rb:79-81 | once a render has happened, `render` raises DoubleRenderError and changes nothing |
| `Controllers.RenderTwiceRaises` | lib/simpler/controller.rb:42-43 | an action that renders, sets statuses, and renders again fails with DoubleRenderError |
| `Controllers.WriteAtMostOnce` | lib/simpler/controller.rb:92-98 | `write_response` leaves the state unchanged once the flag is set |
| `Controllers.AfterActionKeepsSingleCommit` | lib/simpler/controller.rb:92-98 | whatever the action does, the body holds one chunk when the flag is set and none before; a written body is never replaced |
| `Controllers.RespondCommitsOnce` | lib/simpler/controller.rb:23-30 | whenever `make_response` returns, the response carries exactly one body chunk and the flag is set |
| `Controllers.NonRenderingActionKeepsResponse` | lib/simpler/controller.rb:71-73 | an action that makes no render call leaves environment, headers, body, flag and options as they were |
| `Controllers.ImplicitRenderAfterAction` | lib/simpler/controller.rb:75-77 | if the action never renders, the response body is the template rendered once after it, and the only header is `Content-Type: text/html` |
| `Controllers.RenderKnownKind` | lib/simpler/controller.rb:112-118 | a render hash whose first key is `plain`, `json`, `xml` or `html` sets the matching CONTENT_TYPES entry and writes that kind's formatting of its value |
| `Controllers.RenderUnknownKindFallsBack` | lib/simpler/controller.rb:113-114 | any other first key, and the empty hash, renders the template and leaves the headers unchanged |
| `Controllers.RenderTemplateName` | lib/simpler/controller.rb:83-90 | a String or Symbol argument is stored as `simpler.template` and the view renders with it; the headers are unchanged |
| `Controllers.RenderKindsExamples` | lib/simpler/controller.rb:120-126 | `plain` writes the text itself as `text/plain`, `html` is `text/html`, `json` writes `to_json` as `application/json`, `xml` writes `to_xml` as `application/xml`, and a String key is not a kind |
| `Controllers.StatusIsNotARender` | lib/simpler/controller.rb:48-50 | an action that only calls `status` raises nothing, keeps flag, body and headers, and leaves the last code as the status |
| `Controllers.AfterActionKeepsContentType` | lib/simpler/controller.rb:116 | no action step removes the Content-Type header once it is there |
| `Controllers.RespondHasContentType` | lib/simpler/controller.rb:67-69 | every response `make_response` returns has a Content-Type |
| `Controllers.MergeParams` | lib/simpler/controller.rb:34-40 | the merged parameters have the keys of both maps; a route value wins over a request value with the same name |
| `Controllers.Controller.constructor` | lib/simpler/controller.rb:16-21 | a new controller has status 200, no headers, no body, the flag unset and no render options |
| `Controllers.Controller.MakeResponse` | lib/simpler/controller.rb:23-30 | sets the request context and the HTML default, runs the action, renders implicitly if needed, and returns the finished triple or the exception the action raised |
| `Controllers.Controller.Params` | lib/simpler/controller.rb:34-40 | the first call computes request parameters merged with route parameters and keeps the result; later calls return the kept map |
| `Controllers.Controller.Render` | lib/simpler/controller.rb:42-46 | raises DoubleRenderError when already rendered; otherwise handles the argument and writes the body once |
| `Controllers.Controller.Status` | lib/simpler/controller.rb:48-50 | changes the status and nothing else |
| `Controllers.Controller.SetRequestContext` | lib/simpler/controller.rb:62-65 | records the controller and the action symbol in the environment |
| `Controllers.Controller.SetDefaultHeaders` | lib/simpler/controller.rb:67-69 | sets Content-Type to `text/html` |
| `Controllers.Controller.ProcessAction` | lib/simpler/controller.rb:71-73 | runs the action's calls in order, stopping at the first exception |
| `Controllers.Controller.EnsureResponseWritten` | lib/simpler/controller.rb:75-77 | writes the body if it has not been written |
| `Controllers.Controller.EnsureNotRendered` | lib/simpler/controller.rb:79-81 | DoubleRenderError exactly when the flag is set |
| `Controllers.Controller.HandleRenderOptions` | lib/simpler/controller.rb:83-90 | a String or Symbol becomes `simpler.template`, a Hash the render options, anything else is ignored |
| `Controllers.Controller.WriteResponse` | lib/simpler/controller.rb:92-98 | does nothing once the flag is set; otherwise appends the rendered body and sets the flag |
| `Controllers.Controller.RenderBody` | lib/simpler/controller.rb:100-106 | uses the render options when there are any, else the template |
| `Controllers.Controller.ProcessRenderOptions` | lib/simpler/controller.rb:112-118 | a known first kind sets its Content-Type and formats the value; otherwise the template is rendered |
| `Simpler.RouteNotFoundIs404` | lib/simpler/application.rb:94-100 | a missing route gives status 404, `Content-Type: text/plain`, body `"404 Not Found\n\n" + message`, and no log line; the result does not depend on the actions, so no controller runs |
| `Simpler.Dispatch` | lib/simpler/application.rb:31-42 | the outcome of `call`: a resolve error is classified; otherwise the controller responds on the routed environment or its exception is classified; stated by the lemmas of this module |
| `Simpler.Classify` | lib/simpler/application.rb:38-41 | RouteNotFoundError to a not-found outcome, every other error to a failure; stated by `RouteNotFoundIs404` and `OtherErrorIs500` |
| `Simpler.NotFoundResponse` | lib/simpler/application.rb:94-100 | the 404 plain-text triple; stated by `RouteNotFoundIs404` |
| `Simpler.ErrorResponse` | lib/simpler/application.rb:102-109 | the 500 plain-text triple; stated by `OtherErrorIs500` |
| `Simpler.Join` | lib/simpler/application.rb:114 | `join(sep)`: the lines with `sep` between neighbours |
| `Simpler.ErrorLogLines` | lib/simpler/application.rb:111-115 | the two log lines, message then joined backtrace; stated by `OtherErrorIs500` |
| `Simpler.ResponseFor` | lib/simpler/application.rb:31-42 | the triple `call` returns for an outcome; stated by the lemmas of this module |
| `Simpler.LogFor` | lib/simpler/application.rb:38-41 | the log lines `call` writes for an outcome, none except for a failure; stated by `RouteNotFoundIs404` and `OtherErrorIs500` |
| `Simpler.RoutedEnv` | lib/simpler/application.rb:33 | the environment with the route recorded under `simpler.route`; stated by `ControllerSeesRouteParams` |
| `Simpler.OtherErrorIs500` | lib/simpler/application.rb:102-115 | any other error gives status 500, `Content-Type: text/plain`, body `"500 Internal Server Error\n\n" + message`, and logs the message and the joined backtrace |
| `Simpler.BacktraceNeverInResponse` | lib/simpler/application.rb:94-108 | the error responses do not depend on the backtrace |
| `Simpler.DoubleRenderIs500` | lib/simpler/application.rb:40-41 | an action that renders twice makes `call` answer the 500 triple with DoubleRenderError's message, and log that message |
| `Simpler.RespondedIsControllerResponse` | lib/simpler/application.rb:31-37 | a successful `call` returns exactly what the controller's `make_response` returns, built on the environment holding the route; its body is one chunk |
| `Simpler.EveryResponseHasContentType` | lib/simpler/application.rb:31-42 | every triple `call` returns has a Content-Type |
| `Simpler.ControllerSeesRouteParams` | lib/simpler/application.rb:33 | the route stored under `simpler.route` gives the controller its parameters, and they win over request parameters |
| `Simpler.Application.constructor` | lib/simpler/application.rb:15-19 | a new application has no middleware, no database handle, no built app and an empty error log |
| `Simpler.Application.Call` | lib/simpler/application.rb:31-42 | returns the triple of the request's outcome and appends that outcome's log lines |
| `Simpler.Application.Rescue` | lib/simpler/application.rb:38-41 | RouteNotFoundError gives the 404 triple; any other error gives the logged 500 triple |
| `Simpler.Application.MakeErrorResponse` | lib/simpler/application.rb:102-109 | logs the error, then returns the 500 triple |
| `Simpler.Application.LogError` | lib/simpler/application.rb:111-115 | appends the message and the joined backtrace to the error log |
| `Simpler.Application.Use` | lib/simpler/application.rb:44-46 | appends exactly one entry at the end of the middleware list |
| `Simpler.Instantiate` | lib/simpler/application.rb:54 | the builder's `new` calls succeed exactly when every entry is a class; the layers are then the classes with their arguments in registration order, and otherwise the error is the NoMethodError of calling `new` on a Proc |
| `Simpler.ProcUses` | lib/simpler/application.rb:86-88 | the builder entries as written: each stored proc itself, with no arguments |
| `Simpler.ClassUses` | lib/simpler/application.rb:86-88 | the corrected builder entries: each class with its own arguments |
| `Simpler.AsWrittenToAppFails` | lib/simpler/application.rb:86-88 | as written, building fails with NoMethodError for every non-empty middleware list |
| `Simpler.LoggerRegistrationBreaksToApp` | config/application.rb:6 | the application's own `use Simpler::Middleware::Logger` makes the as-written build fail |
| `Simpler.ClassUsesInstantiate` | lib/simpler/application.rb:86-88 | corrected, the builder produces exactly the registered middleware in registration order |
| `Simpler.Stack.constructor` | lib/simpler/application.rb:54 | the built application records its middleware layers, outermost first, and the application innermost |
| `Simpler.Builder.constructor` | lib/simpler/application.rb:51 | a new builder has no entries and no application to run |
| `Simpler.Builder.Use` | lib/simpler/application.rb:87 | appends the entry with its arguments |
| `Simpler.Builder.Run` | lib/simpler/application.rb:53 | records the application to run innermost |
| `Simpler.Builder.ToApp` | lib/simpler/application.rb:54 | fails without a `run`; fails with the NoMethodError when an entry is a Proc; otherwise a new stack of the instantiated layers around the application |
| `Simpler.Application.ToAppAsWritten` | lib/simpler/application.rb:48-55 | as written: returns a memoised app if there is one; otherwise fails with NoMethodError whenever middleware is registered, leaving `@app` unset, and builds the bare application when none is |
| `Simpler.Application.ApplyMiddlewareAsWritten` | lib/simpler/application.rb:86-88 | as written: hands each stored proc to the builder, in registration order |
| `Simpler.Application.ToApp` | lib/simpler/application.rb:48-55 | corrected: the first call builds a new stack from the current middleware list, with the application innermost; every later call returns that same object |
| `Simpler.Application.ApplyMiddleware` | lib/simpler/application.rb:86-88 | corrected: hands each class with its arguments to the builder, in registration order, proved by a loop invariant |

## Findings

| source | as written | input that shows it | evidently intended | confidence | as-written member | corrected member |
|---|---|---|---|---|---|---|
| lib/simpler/application.rb:86-88 | `use` stores a proc, and `apply_middleware` passes that proc to `Rack::Builder#use`, whose `to_app` then calls `new(app)` on it; a Proc has no `new`, so `to_app` raises NoMethodError and never sets `@app` | any registered middleware, for example `use Simpler::Middleware::Logger` in config/application.rb:6 | `to_app` wraps the application in the registered middleware classes, with their arguments, in registration order | high; not executed | `Simpler.AsWrittenToAppFails`, `Simpler.Application.ToAppAsWritten` | `Simpler.ClassUsesInstantiate`, `Simpler.Application.ToApp` |

## Left out

- lib/simpler/middleware/logger.rb is not part of this model. It is file logging with clock readings, floating-point durations and Rack's status table.
- These application.rb members are not modelled: `bootstrap!`, `setup_database`, `load_database_config`, `setup_database_extensions`, `require_app`, `require_routes`, the `routes` DSL hook and the `Singleton` mixin. They are YAML, filesystem and Sequel I/O. `db` is kept only as the field a new application leaves empty.
- The router itself (`Router`, `route_for`, `RouteNotFoundError`) is not part of this model. Route lookup is the parameter `resolve`, and no first-match policy is claimed.
- Rack's classes are not modelled:
  - `Rack::Request` parameter parsing is a collaborator function.
  - `Rack::Response` is a status, a header map and a list of body chunks. The Content-Length handling of `write`/`finish` and its treatment of bodyless statuses are not modelled.
  - `Rack::Builder` records the entries and the innermost application, and its `to_app` calls `new` on each entry. The nesting in which middleware later runs around a request is not modelled, and neither are the side effects of a middleware's own `initialize`.
- View rendering, `to_json`, `to_xml` and `inspect` are collaborator functions. They are total, so the model has no exception raised by a template or a serialiser. The view sees the request environment, not the action's instance variables (the `binding`).
- `send(action)` is modelled as a script of `render`/`status` calls and a possible exception. An action's own computation is not modelled: reading `params`, writing `headers` directly, or setting instance variables. A missing action method is modelled as an action that raises.
- `extract_name` and the controller's `name` are not modelled. They derive a string from the Ruby class name.
- `Router.Route.constructor`: it requires templates whose literal text has no regular-expression metacharacters and whose parameter names are distinct ASCII group names (a letter or `_`, then letters, digits and `_`). Ruby also accepts names with non-ASCII word characters, such as `/tests/:имя`; the model does not cover those. The source puts literal text into the regular expression unescaped; it raises RegexpError on invalid group names; and with duplicate names its `names.zip(captures)` pairs names with the wrong captures.
- The race between threads sharing a `Route`'s `params` is not modelled; the model is sequential.
- Symbols are modelled by their names, so `to_sym` comparisons are string equality. `status(code)` takes an integer, so `to_i` conversion is not modelled.
- A DoubleRenderError raised by the model carries an empty backtrace; Ruby's call stack is not modelled.
- `Simpler.Application.Call`: exceptions that are not StandardErrors escape `call`, because the source rescues only StandardError. An example is `raise NotImplementedError` in an action. The model's errors are all StandardErrors, so its `call` always answers.
- `Simpler.Application.LogError`: the log file cannot fail to open in the model. In the source, an exception raised by `Logger.new` inside the rescue clause (for example, a missing `log` directory) escapes `call`.
- `Simpler.Application.Call`: the model passes the environment by value. In the source, `simpler.route` and the controller's writes (`simpler.controller`, `simpler.action`, `simpler.template`) go into the caller's own hash, where outer middleware reads them after `call` returns. This aliasing is not modelled.
- The exact text of the NoMethodError message depends on the Ruby version; the model fixes one wording.

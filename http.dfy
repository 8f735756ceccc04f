/**
  The values that travel through a request: Ruby values handed to `render`,
  the Rack environment entries the framework reads and writes, the response
  triple, and the errors raised on the request path.
 */
module Http {

  /** A Ruby value as an action passes it to `render`. */
  datatype Value =
    | Str(s: string)
    | Sym(name: string)
    | Int(i: int)
    | Nil
    | Hash(entries: seq<(Value, Value)>)
    | Arr(items: seq<Value>)

  /** What the router hands back for a request: the route's controller and
      action and the named parameters it captured. */
  datatype Matched = Matched(controller: string, action: string, params: map<string, string>)

  /** An entry of the Rack environment hash. */
  datatype EnvVal =
    | Obj(v: Value)                // a plain Ruby value (template name, action symbol)
    | CurrentController            // the controller handling this request
    | MatchedRoute(route: Matched) // the route resolved for this request

  type Env = map<string, EnvVal>

  const RouteKey := "simpler.route"
  const ControllerKey := "simpler.controller"
  const ActionKey := "simpler.action"
  const TemplateKey := "simpler.template"

  const ContentTypeHeader := "Content-Type"

  /** The Rack response: status, headers and the list of body chunks. */
  datatype Triple = Triple(status: int, headers: map<string, string>, body: seq<string>)

  /** The exception classes the request path distinguishes. */
  datatype ErrorKind =
    | RouteNotFound                // Router::RouteNotFoundError
    | DoubleRender                 // Controller::DoubleRenderError
    | OtherError(className: string) // any other StandardError

  datatype Error = Error(kind: ErrorKind, message: string, backtrace: seq<string>)
}

/**
 * The three request shapes the middleware accepts, seen only through the
 * accessors it uses, and the request decorated with a resolved binding.
 */
module Requests {
  import opened Wrappers
  import opened Controller

  /** The query string of a URL, as `url.Values`: each key maps to its values in order. */
  type Query = map<string, seq<string>>

  /** `url.Values.Get`: the first value of `key`, or "" when it has none. */
  function QueryGet(query: Query, key: string): string {
    if key in query && |query[key]| > 0 then query[key][0] else ""
  }

  /** A plain request; `URL().Query()` is the only part the middleware reads. */
  datatype Request = Request(query: Query)

  /** A request carrying the mandates the caller presented, already verified upstream. */
  datatype AuthenticatedRequest = AuthenticatedRequest(request: Request, mandates: seq<AuthenticatedMandate>)

  /** The structured action of an action request; `params` is `None` when the Go map is nil. */
  datatype Action = Action(params: Option<map<string, string>>)

  /** An authenticated request whose operation is carried as an action. */
  datatype ActionRequest = ActionRequest(authenticated: AuthenticatedRequest, action: Action)

  /**
   * A request of shape `Req` together with the binding resolved for it: the
   * structs standardRequestWithBinding, standardAuthenticatedRequestWithBinding
   * and standardActionRequestWithBinding are this type at the three shapes.
   */
  datatype WithBinding<Req> = WithBinding(request: Req, binding: Controller.Binding) {

    /** The `Binding()` accessor of the decorated request. */
    function Binding(): Controller.Binding {
      binding
    }
  }
}

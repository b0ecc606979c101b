/**
 * The binding-attachment middleware. Per request it extracts a binding
 * identifier, resolves it through the binding store, for the authenticated
 * shapes demands a qualifying mandate, and hands the request decorated with the
 * binding to the downstream handler. Each step can end the request with an
 * error response instead.
 *
 * `Pipeline` is the one algorithm, parameterised by a `Strategy`; the methods
 * `AddBinding`, `AddAuthenticatedBinding` and `AddActionBinding` follow the three
 * wrappers step by step and are proved to be `Pipeline` at their strategies.
 */
module Middleware {
  import opened Wrappers
  import opened Controller
  import opened Requests
  import opened Authorization

  const StatusBadRequest: int := 400
  const StatusForbidden: int := 403
  const StatusInternalServerError: int := 500

  const NoBindingMessage: string := "No binding in request"
  const LookupFailedMessage: string := "could not lookup binding"
  const ForbiddenMessage: string := "Mandate not signed by binding realm"

  /** The text of `errors.Wrap(err, message)`. */
  function Wrap(message: string, err: string): string {
    message + ": " + err
  }

  /** What the middleware answers: an error response it builds, or whatever the handler returned. */
  datatype Reply<R> = Rejected(statusCode: int, message: string) | Delegated(response: R)

  /** The effects of one request on the collaborators, in order. */
  datatype Event<Req> =
    | Lookup(id: string)                // the binding store was asked for `id`
    | Invoke(request: WithBinding<Req>) // the downstream handler was called with `request`

  datatype Run<Req, R> = Run(reply: Reply<R>, trace: seq<Event<Req>>)

  /**
   * What distinguishes the three wrappers: where the identifier comes from and,
   * when mandates must be checked, where they come from. Decoration pairs the
   * request with its binding in every shape.
   */
  datatype Strategy<-Req> = Strategy(
    extractId: Req -> Option<string>,
    mandates: Option<Req -> seq<AuthenticatedMandate>>)

  /** The `binding` query parameter, when it is not empty. */
  function QueryBindingId(request: Request): Option<string> {
    var id := QueryGet(request.query, "binding");
    if id == "" then None else Some(id)
  }

  function AuthenticatedBindingId(request: AuthenticatedRequest): Option<string> {
    QueryBindingId(request.request)
  }

  /**
   * The query parameter first; when it is empty, the `binding` entry of the
   * action's parameters, which is taken as it is, even when it is empty.
   */
  function ActionBindingId(request: ActionRequest): Option<string> {
    var id := QueryGet(request.authenticated.request.query, "binding");
    if id != "" then Some(id)
    else match request.action.params
      case None => None
      case Some(params) => if "binding" in params then Some(params["binding"]) else None
  }

  function AuthenticatedMandates(request: AuthenticatedRequest): seq<AuthenticatedMandate> {
    request.mandates
  }

  function ActionMandates(request: ActionRequest): seq<AuthenticatedMandate> {
    request.authenticated.mandates
  }

  function PlainStrategy(): Strategy<Request> {
    Strategy(QueryBindingId, None)
  }

  function AuthenticatedStrategy(): Strategy<AuthenticatedRequest> {
    Strategy(AuthenticatedBindingId, Some(AuthenticatedMandates))
  }

  function ActionStrategy(): Strategy<ActionRequest> {
    Strategy(ActionBindingId, Some(ActionMandates))
  }

  /** The request gets past every check of the middleware. */
  predicate Admitted<Req>(s: Strategy<Req>, bm: BindingService, thumbprint: ThumbprintFunction, req: Req) {
    && s.extractId(req).Some?
    && bm(s.extractId(req).value).Success?
    && (s.mandates.Some? ==> Authorized(s.mandates.value(req), bm(s.extractId(req).value).value, thumbprint))
  }

  /** The generic middleware: extract, resolve, authorize, decorate and delegate. */
  function Pipeline<Req, R>(s: Strategy<Req>, bm: BindingService, thumbprint: ThumbprintFunction,
                            h: WithBinding<Req> -> R, req: Req): Run<Req, R>
  {
    match s.extractId(req)
    case None => Run(Rejected(StatusBadRequest, NoBindingMessage), [])
    case Some(id) =>
      match bm(id)
      case Failure(err) => Run(Rejected(StatusInternalServerError, Wrap(LookupFailedMessage, err)), [Lookup(id)])
      case Success(binding) =>
        if s.mandates.Some? && !Authorized(s.mandates.value(req), binding, thumbprint) then
          Run(Rejected(StatusForbidden, ForbiddenMessage), [Lookup(id)])
        else
          var decorated := WithBinding(req, binding);
          Run(Delegated(h(decorated)), [Lookup(id), Invoke(decorated)])
  }

  /** `addBinding`, applied to one request. The thumbprint plays no part in it. */
  method AddBinding<R>(bm: BindingService, h: WithBinding<Request> -> R, req: Request)
    returns (reply: Reply<R>, trace: seq<Event<Request>>)
    ensures forall thumbprint: ThumbprintFunction ::
      Run(reply, trace) == Pipeline(PlainStrategy(), bm, thumbprint, h, req)
  {
    var bindID := QueryGet(req.query, "binding");
    if bindID == "" {
      return Rejected(StatusBadRequest, NoBindingMessage), [];
    }

    trace := [Lookup(bindID)];
    var lookup := bm(bindID);
    if lookup.Failure? {
      return Rejected(StatusInternalServerError, Wrap(LookupFailedMessage, lookup.error)), trace;
    }

    var decorated := WithBinding(req, lookup.value);
    trace := trace + [Invoke(decorated)];
    reply := Delegated(h(decorated));
  }

  /** `addAuthenticatedBinding`, applied to one request. */
  method AddAuthenticatedBinding<R>(bm: BindingService, thumbprint: ThumbprintFunction,
                                    h: WithBinding<AuthenticatedRequest> -> R, req: AuthenticatedRequest)
    returns (reply: Reply<R>, trace: seq<Event<AuthenticatedRequest>>)
    ensures Run(reply, trace) == Pipeline(AuthenticatedStrategy(), bm, thumbprint, h, req)
  {
    var bindID := QueryGet(req.request.query, "binding");
    if bindID == "" {
      return Rejected(StatusBadRequest, NoBindingMessage), [];
    }

    trace := [Lookup(bindID)];
    var lookup := bm(bindID);
    if lookup.Failure? {
      return Rejected(StatusInternalServerError, Wrap(LookupFailedMessage, lookup.error)), trace;
    }
    var binding := lookup.value;

    var success := ScanMandates(req.mandates, binding, thumbprint);
    if !success {
      return Rejected(StatusForbidden, ForbiddenMessage), trace;
    }

    var decorated := WithBinding(req, binding);
    trace := trace + [Invoke(decorated)];
    reply := Delegated(h(decorated));
  }

  /** `addActionBinding`, applied to one request. */
  method AddActionBinding<R>(bm: BindingService, thumbprint: ThumbprintFunction,
                             h: WithBinding<ActionRequest> -> R, req: ActionRequest)
    returns (reply: Reply<R>, trace: seq<Event<ActionRequest>>)
    ensures Run(reply, trace) == Pipeline(ActionStrategy(), bm, thumbprint, h, req)
  {
    var bindID := QueryGet(req.authenticated.request.query, "binding");
    if bindID == "" {
      if req.action.params.None? {
        return Rejected(StatusBadRequest, NoBindingMessage), [];
      }
      var params := req.action.params.value;
      if "binding" !in params {
        return Rejected(StatusBadRequest, NoBindingMessage), [];
      }
      bindID := params["binding"];
    }

    trace := [Lookup(bindID)];
    var lookup := bm(bindID);
    if lookup.Failure? {
      return Rejected(StatusInternalServerError, Wrap(LookupFailedMessage, lookup.error)), trace;
    }
    var binding := lookup.value;

    var success := ScanMandates(req.authenticated.mandates, binding, thumbprint);
    if !success {
      return Rejected(StatusForbidden, ForbiddenMessage), trace;
    }

    var decorated := WithBinding(req, binding);
    trace := trace + [Invoke(decorated)];
    reply := Delegated(h(decorated));
  }
}

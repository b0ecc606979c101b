/**
 * What the middleware promises per request: the status each failure maps to,
 * whether the store and the handler are reached, where the action variant finds
 * its identifier, and what the handler is given.
 */
module Properties {
  import opened Wrappers
  import opened Controller
  import opened Requests
  import opened Authorization
  import opened Middleware

  /** No identifier: 400, and neither the store nor the handler is reached. */
  lemma MissingIdentifierRejected<Req, R>(s: Strategy<Req>, bm: BindingService, thumbprint: ThumbprintFunction,
                                          h: WithBinding<Req> -> R, req: Req)
    requires s.extractId(req).None?
    ensures Pipeline(s, bm, thumbprint, h, req) == Run(Rejected(StatusBadRequest, NoBindingMessage), [])
  {
  }

  /** A lookup error: 500 carrying the wrapped error; the store was asked once, the handler never. */
  lemma LookupFailureRejected<Req, R>(s: Strategy<Req>, bm: BindingService, thumbprint: ThumbprintFunction,
                                      h: WithBinding<Req> -> R, req: Req, id: string)
    requires s.extractId(req) == Some(id) && bm(id).Failure?
    ensures Pipeline(s, bm, thumbprint, h, req)
         == Run(Rejected(StatusInternalServerError, Wrap(LookupFailedMessage, bm(id).error)), [Lookup(id)])
  {
  }

  /** A resolved binding but no qualifying mandate: 403, and the handler is not called. */
  lemma UnauthorizedRejected<Req, R>(s: Strategy<Req>, bm: BindingService, thumbprint: ThumbprintFunction,
                                     h: WithBinding<Req> -> R, req: Req, id: string)
    requires s.extractId(req) == Some(id) && bm(id).Success? && s.mandates.Some?
    requires !Authorized(s.mandates.value(req), bm(id).value, thumbprint)
    ensures Pipeline(s, bm, thumbprint, h, req) == Run(Rejected(StatusForbidden, ForbiddenMessage), [Lookup(id)])
  {
  }

  /**
   * The handler's answer is the middleware's answer exactly when the request is
   * admitted; it is then called once, after the single lookup, with the request
   * decorated by the binding the store returned for this request's identifier.
   */
  lemma AdmittedIffDelegated<Req, R>(s: Strategy<Req>, bm: BindingService, thumbprint: ThumbprintFunction,
                                     h: WithBinding<Req> -> R, req: Req)
    ensures Pipeline(s, bm, thumbprint, h, req).reply.Delegated? <==> Admitted(s, bm, thumbprint, req)
    ensures Admitted(s, bm, thumbprint, req) ==>
      var id := s.extractId(req).value;
      var decorated := WithBinding(req, bm(id).value);
      Pipeline(s, bm, thumbprint, h, req) == Run(Delegated(h(decorated)), [Lookup(id), Invoke(decorated)])
    ensures !Admitted(s, bm, thumbprint, req) ==>
      forall e :: e in Pipeline(s, bm, thumbprint, h, req).trace ==> e.Lookup?
  {
  }

  /**
   * Whatever the outcome, the store is asked at most once and only for the
   * extracted identifier, and a handler call sees the original request and the
   * binding resolved for it.
   */
  lemma TraceIsFaithful<Req, R>(s: Strategy<Req>, bm: BindingService, thumbprint: ThumbprintFunction,
                                h: WithBinding<Req> -> R, req: Req)
    ensures var trace := Pipeline(s, bm, thumbprint, h, req).trace;
      && |trace| <= 2
      && (|trace| > 0 <==> s.extractId(req).Some?)
      && (forall k :: 0 <= k < |trace| ==> (trace[k].Lookup? <==> k == 0))
      && (forall k :: 0 <= k < |trace| && trace[k].Lookup? ==> Some(trace[k].id) == s.extractId(req))
      && (forall k :: 0 <= k < |trace| && trace[k].Invoke? ==>
            && trace[k].request.request == req
            && bm(s.extractId(req).value).Success?
            && trace[k].request.Binding() == bm(s.extractId(req).value).value)
  {
  }

  /** Plain and authenticated requests take the identifier from the query alone. */
  lemma EmptyQueryRejected<R>(bm: BindingService, thumbprint: ThumbprintFunction,
                              hPlain: WithBinding<Request> -> R, hAuth: WithBinding<AuthenticatedRequest> -> R,
                              req: AuthenticatedRequest)
    requires QueryGet(req.request.query, "binding") == ""
    ensures Pipeline(PlainStrategy(), bm, thumbprint, hPlain, req.request)
         == Run(Rejected(StatusBadRequest, NoBindingMessage), [])
    ensures Pipeline(AuthenticatedStrategy(), bm, thumbprint, hAuth, req)
         == Run(Rejected(StatusBadRequest, NoBindingMessage), [])
  {
  }

  /** The plain variant checks no mandate: any resolved binding reaches the handler. */
  lemma PlainNeedsNoMandate<R>(bm: BindingService, thumbprint: ThumbprintFunction,
                               h: WithBinding<Request> -> R, req: Request)
    ensures Admitted(PlainStrategy(), bm, thumbprint, req)
        <==> QueryGet(req.query, "binding") != "" && bm(QueryGet(req.query, "binding")).Success?
  {
  }

  /** An authenticated request presenting no mandate is refused with 403 once its binding resolves. */
  lemma NoMandatesForbidden<R>(bm: BindingService, thumbprint: ThumbprintFunction,
                               h: WithBinding<AuthenticatedRequest> -> R, req: AuthenticatedRequest)
    requires req.mandates == []
    requires QueryGet(req.request.query, "binding") != ""
    requires bm(QueryGet(req.request.query, "binding")).Success?
    ensures Pipeline(AuthenticatedStrategy(), bm, thumbprint, h, req)
         == Run(Rejected(StatusForbidden, ForbiddenMessage), [Lookup(QueryGet(req.request.query, "binding"))])
  {
  }

  /** Mandates signed only by other realms' keys are refused with 403, whatever shape checks them. */
  lemma ForeignRealmForbidden<Req, R>(s: Strategy<Req>, bm: BindingService, thumbprint: ThumbprintFunction,
                                      h: WithBinding<Req> -> R, req: Req, id: string)
    requires s.extractId(req) == Some(id) && bm(id).Success? && s.mandates.Some?
    requires forall m :: m in s.mandates.value(req) ==>
      thumbprint(m.signer) != thumbprint(bm(id).value.realm.publicKey)
    ensures Pipeline(s, bm, thumbprint, h, req) == Run(Rejected(StatusForbidden, ForbiddenMessage), [Lookup(id)])
  {
  }

  /** In the action variant a non-empty query parameter wins over the action's parameters. */
  lemma ActionQueryTakesPrecedence<R>(bm: BindingService, thumbprint: ThumbprintFunction,
                                      h: WithBinding<ActionRequest> -> R, req: ActionRequest)
    requires QueryGet(req.authenticated.request.query, "binding") != ""
    ensures Pipeline(ActionStrategy(), bm, thumbprint, h, req).trace[0]
         == Lookup(QueryGet(req.authenticated.request.query, "binding"))
  {
  }

  /** With an empty query parameter the action's `binding` parameter is looked up, as it is. */
  lemma ActionFallsBackToParams<R>(bm: BindingService, thumbprint: ThumbprintFunction,
                                   h: WithBinding<ActionRequest> -> R, req: ActionRequest,
                                   params: map<string, string>)
    requires QueryGet(req.authenticated.request.query, "binding") == ""
    requires req.action.params == Some(params) && "binding" in params
    ensures Pipeline(ActionStrategy(), bm, thumbprint, h, req).trace[0] == Lookup(params["binding"])
  {
  }

  /** With an empty query parameter and no `binding` action parameter (or no parameters at all): 400. */
  lemma ActionWithoutBindingRejected<R>(bm: BindingService, thumbprint: ThumbprintFunction,
                                        h: WithBinding<ActionRequest> -> R, req: ActionRequest)
    requires QueryGet(req.authenticated.request.query, "binding") == ""
    requires req.action.params.None? || "binding" !in req.action.params.value
    ensures Pipeline(ActionStrategy(), bm, thumbprint, h, req)
         == Run(Rejected(StatusBadRequest, NoBindingMessage), [])
  {
  }

  /** The order in which mandates are presented never changes whether the request is admitted. */
  lemma MandateOrderIrrelevant<R>(bm: BindingService, thumbprint: ThumbprintFunction,
                                  h: WithBinding<AuthenticatedRequest> -> R, req: AuthenticatedRequest,
                                  reordered: seq<AuthenticatedMandate>)
    requires multiset(reordered) == multiset(req.mandates)
    ensures var other := AuthenticatedRequest(req.request, reordered);
      && Admitted(AuthenticatedStrategy(), bm, thumbprint, req) == Admitted(AuthenticatedStrategy(), bm, thumbprint, other)
      && (Pipeline(AuthenticatedStrategy(), bm, thumbprint, h, req).reply.Rejected? ==>
            Pipeline(AuthenticatedStrategy(), bm, thumbprint, h, req).reply
              == Pipeline(AuthenticatedStrategy(), bm, thumbprint, h, other).reply)
  {
    var id := AuthenticatedBindingId(req);
    if id.Some? && bm(id.value).Success? {
      AuthorizedIgnoresOrder(req.mandates, reordered, bm(id.value).value, thumbprint);
    }
  }

  /** The action shape checks mandates the same way: their order never changes whether the request is admitted. */
  lemma ActionMandateOrderIrrelevant<R>(bm: BindingService, thumbprint: ThumbprintFunction,
                                        h: WithBinding<ActionRequest> -> R, req: ActionRequest,
                                        reordered: seq<AuthenticatedMandate>)
    requires multiset(reordered) == multiset(req.authenticated.mandates)
    ensures var other := ActionRequest(AuthenticatedRequest(req.authenticated.request, reordered), req.action);
      && Admitted(ActionStrategy(), bm, thumbprint, req) == Admitted(ActionStrategy(), bm, thumbprint, other)
      && (Pipeline(ActionStrategy(), bm, thumbprint, h, req).reply.Rejected? ==>
            Pipeline(ActionStrategy(), bm, thumbprint, h, req).reply
              == Pipeline(ActionStrategy(), bm, thumbprint, h, other).reply)
  {
    var id := ActionBindingId(req);
    if id.Some? && bm(id.value).Success? {
      AuthorizedIgnoresOrder(req.authenticated.mandates, reordered, bm(id.value).value, thumbprint);
    }
  }

  /**
   * Two requests naming the same binding each reach the handler with their own
   * request: nothing of one is carried into the other. That both see the same
   * binding comes from the store being modelled as a function of the identifier,
   * not from anything the middleware does.
   */
  lemma RequestsAreIndependent<Req, R>(s: Strategy<Req>, bm: BindingService, thumbprint: ThumbprintFunction,
                                       h: WithBinding<Req> -> R, first: Req, second: Req)
    requires s.extractId(first) == s.extractId(second)
    requires Admitted(s, bm, thumbprint, first) && Admitted(s, bm, thumbprint, second)
    ensures var a := Pipeline(s, bm, thumbprint, h, first).trace;
      var b := Pipeline(s, bm, thumbprint, h, second).trace;
      && |a| == 2 && |b| == 2 && a[1].Invoke? && b[1].Invoke?
      && a[1].request.request == first && b[1].request.request == second
      && a[1].request.Binding() == b[1].request.Binding()
  {
  }
}

# Binding-attachment middleware, modelled in Dafny

This project models the binding middleware of the `httphandler` package
(`binding.go`). Each incoming request names a *binding* (a tenant
configuration). The middleware resolves that name through a `BindingService`
and, for the authenticated request shapes, checks that the caller presented a
*mandate* that qualifies. A mandate qualifies when it is signed with the key of
the binding's realm and carries one of the binding's admin roles. The request,
decorated with the binding, then goes to the downstream handler. Each failure
ends the request with a fixed status:

- no identifier: 400 "No binding in request";
- lookup error: 500 "could not lookup binding: <error>";
- no qualifying mandate: 403 "Mandate not signed by binding realm".

Modules:

- `Wrappers` (`wrappers.dfy`): `Option`, and `Result` for Go's `(value, error)` returns.
- `Controller` (`controller.dfy`): the external types. These are the binding, its realm, a mandate and its signer key. It also holds the two collaborators as function types: `BindingService` (`Get`) and `ThumbprintFunction` (`crypto.Thumbprint`).
- `Requests` (`requests.dfy`): the three request shapes, reduced to what the middleware reads. These are the query string, the presented mandates and the action's optional parameter map. It also defines `WithBinding<Req>`, the decorated request with its `Binding()` accessor. The three Go structs `standard…RequestWithBinding` are this one type at the three shapes.
- `Authorization` (`authorization.dfy`): `HasRole` and `ScanMandates` are loop methods, written as the Go loops are. `HasRole` is proved equal to `role in roleList`, and `ScanMandates` to the predicate `Authorized` (some mandate satisfies `Qualifies`). The property lemmas are stated over those predicates.
- `Middleware` (`middleware.dfy`): one generic `Pipeline` (extract → resolve → authorize → decorate). It is parameterised by a `Strategy`, which gives the identifier extractor and, if mandates are checked, where to find them. `AddBinding`, `AddAuthenticatedBinding` and `AddActionBinding` follow the three Go wrappers step by step. Each is proved equal to `Pipeline` at its own strategy.
- `Properties` (`properties.dfy`): per-request guarantees, stated over `Pipeline`.

How effects are modelled:

- A run returns a `Reply` plus a `trace` of effects on the collaborators.
- `Lookup(id)` in the trace means the store was asked for `id`.
- `Invoke(decorated)` means the handler was called with `decorated`.
- So "the store is not queried" is an empty trace.
- "The handler runs exactly once" is a trace `[Lookup(id), Invoke(decorated)]`.

## Model

| member | source | states |
|---|---|---|
| Authorization.HasRole | binding.go:158-166 | returns true iff some entry of the role list equals the role exactly, so it is case-sensitive with no wildcard; an empty list gives false |
| Authorization.ScanMandates | binding.go:95-103 | the scan over all mandates, with no early exit, yields true iff some mandate's signer thumbprint equals the realm key's thumbprint and its role is in the admin roles |
| Authorization.AuthorizedIffSomeMember | binding.go:98-103 | the decision depends only on which mandates are present: some member of the sequence qualifies |
| Authorization.AuthorizedIgnoresOrder | binding.go:97-103 | any permutation of the presented mandates gives the same decision |
| Authorization.AuthorizedAppend | binding.go:97-103 | the decision over two batches of mandates is the disjunction of the decisions over each |
| Authorization.EmptyMandatesUnauthorized | binding.go:97-105 | no presented mandate never authorizes |
| Authorization.ForeignSignersUnauthorized | binding.go:99-100 | mandates whose signers all have a thumbprint other than the realm key's never authorize, whatever their roles |
| Authorization.UnlistedRoleUnauthorized | binding.go:100 | a mandate signed by the realm but with a role not in the admin roles does not authorize |
| Authorization.RoleMatchIsCaseSensitive | binding.go:158-166 | a mandate with role "Admin" is not authorized by admin roles ["admin"] |
| Middleware.AddBinding | binding.go:63-80 | the plain wrapper behaves as `Pipeline` with the query extractor and no mandate check, for every thumbprint function |
| Middleware.AddAuthenticatedBinding | binding.go:83-114 | the authenticated wrapper behaves as `Pipeline` with the query extractor and the request's mandates |
| Middleware.AddActionBinding | binding.go:117-156 | the action wrapper, including its fallback reassignment of the identifier, behaves as `Pipeline` with the action extractor and the request's mandates |
| Properties.MissingIdentifierRejected | binding.go:65-68 | no identifier gives 400 "No binding in request" with an empty trace: the store is not queried and the handler is not called |
| Properties.LookupFailureRejected | binding.go:70-73 | a lookup error gives 500 with the wrapped error text; the only effect is the one lookup, and no mandate check or handler call follows |
| Properties.UnauthorizedRejected | binding.go:105-107 | a resolved binding with no qualifying mandate gives 403 "Mandate not signed by binding realm"; the handler is not called |
| Properties.AdmittedIffDelegated | binding.go:75-78 | the handler's result is the reply iff the request passes every check; the trace is then exactly one lookup and one handler call, with the request decorated by the binding the store returned; otherwise the handler is not called |
| Properties.TraceIsFaithful | binding.go:23-60 | the store is asked at most once, first, and only for the extracted identifier; a handler call gets the original request, and its `Binding()` is the binding resolved for that identifier |
| Properties.EmptyQueryRejected | binding.go:85-88 | in the plain and authenticated shapes, an empty `binding` query parameter gives 400 with no effect |
| Properties.PlainNeedsNoMandate | binding.go:63-80 | the plain shape admits a request iff its query names a binding the store resolves |
| Properties.NoMandatesForbidden | binding.go:97-107 | an authenticated request with no mandates gives 403 once its binding resolves |
| Properties.ForeignRealmForbidden | binding.go:137-149 | in an authenticated shape, mandates signed only by other realms' keys give 403 after the single lookup |
| Properties.ActionQueryTakesPrecedence | binding.go:119-120 | in the action shape, a non-empty query parameter is the identifier looked up, whatever the action parameters hold |
| Properties.ActionFallsBackToParams | binding.go:119-130 | with an empty query parameter, the action's `binding` parameter is looked up as it stands, even when it is empty |
| Properties.ActionWithoutBindingRejected | binding.go:121-129 | with an empty query parameter and either nil action parameters or no `binding` key, the reply is 400 and the store is not queried |
| Properties.MandateOrderIrrelevant | binding.go:97-107 | reordering an authenticated request's mandates changes neither admission nor any error reply |
| Properties.ActionMandateOrderIrrelevant | binding.go:139-149 | reordering an action request's mandates changes neither admission nor any error reply |
| Properties.RequestsAreIndependent | binding.go:75-78 | two admitted requests naming the same binding each reach the handler with their own request and the same resolved binding |

## Left out

- `request.go`: request construction is not part of this model. That covers request IDs, logger fields, body reading and localized messages. The middleware only reads the query string, the mandates and the action parameters, and those are plain fields of the request datatypes here.
- `url.Values.Get` is written out as "first value of the key, or empty". Query-string parsing is not part of this model.
- `router.go` and `logging.go`: these are the router/CORS setup and the logger lookup. They hold no decision logic and are not part of this model.
- `crypto.Thumbprint` is a function parameter: deterministic, otherwise unknown. It is not reimplemented. Mandate signature validity is checked upstream and is not modelled.
- `BindingService.Get` is a total function from identifier to `Result`. So two lookups of the same identifier agree. Store I/O, latency and concurrency are not modelled.
- `github.com/pkg/errors`: only the message text is kept (`message + ": " + cause`), not the error chain or stack.
- The `Response` interface: a reply is either the middleware's own error response (status and message) or the handler's return value, which is opaque.
- Nil values from collaborators are not modelled: the store is assumed never to return a nil binding without an error, and requests are assumed to have a non-nil action and mandates with non-nil payloads. In Go, a nil binding reaches the plain wrapper's handler as a nil `Binding()` and makes the other two wrappers panic at `binding.Realm()`. A nil action or mandate payload also panics.
- Concurrency between requests is an external concern. A run is a function of its own request only.
- In the action shape, the model keeps the code's behaviour: a present but empty `binding` action parameter is passed to the store unchanged. The emptiness check applies only to the query parameter.

/** The authentication hook the gateway installs in the proxy's pipeline.
    Each request ends in exactly one of two ways: the next stage is invoked
    (admitted) or an unauthenticated error is recorded (rejected). The calls
    the hook makes are returned as a trace so that what it consults can be
    stated. */
module AuthenticationGate {
  import opened Wrappers
  import opened Http
  import opened AnonymousRoutes

  /** The result of the authentication handler: success carries the principal;
      a failure and "no result" both count as not succeeded. */
  datatype AuthenticateResult = AuthSuccess(principal: Principal) | AuthFailure(message: string) | NoResult {
    predicate Succeeded() { AuthSuccess? }
  }

  /** What the hook reads and writes: whether the matched downstream route
      demands authentication, the request path, the user and the error list. */
  datatype GateContext = GateContext(isAuthenticatedRoute: bool, path: string, user: Option<Principal>, errors: seq<Error>)

  /** The calls the hook can make, in the order made. */
  datatype Call = HasAccessCall(path: string) | AuthenticateCall | NextCall

  datatype GateRun = GateRun(context: GateContext, calls: seq<Call>) {
    /** Admitted exactly when the next stage was invoked. */
    predicate Admitted() { NextCall in calls }
  }

  const UnauthenticatedMessage: string := "Unauthenticated"

  function Gate(ctx: GateContext, validator: AnonymousRouteValidator, auth: AuthenticateResult): (r: GateRun)
    // Admitted iff the route is open, the path is anonymous, or authentication succeeded.
    ensures r.Admitted() <==> !ctx.isAuthenticatedRoute || validator.HasAccess(ctx.path) || auth.Succeeded()
    // The registry is consulted iff the route demands authentication.
    ensures HasAccessCall(ctx.path) in r.calls <==> ctx.isAuthenticatedRoute
    ensures forall c :: c in r.calls && c.HasAccessCall? ==> c.path == ctx.path && ctx.isAuthenticatedRoute
    // Authentication is attempted iff the route demands it and the path is not anonymous.
    ensures AuthenticateCall in r.calls <==> ctx.isAuthenticatedRoute && !validator.HasAccess(ctx.path)
    // The next stage is invoked at most once, and last.
    ensures multiset(r.calls)[NextCall] == if r.Admitted() then 1 else 0
    ensures r.Admitted() ==> r.calls[|r.calls| - 1] == NextCall
    // Exactly one outcome: the error list is untouched on admission and grows by one unauthenticated error otherwise.
    ensures r.Admitted() ==> r.context.errors == ctx.errors
    ensures !r.Admitted() ==> r.context.errors == ctx.errors + [UnauthenticatedError(UnauthenticatedMessage)]
    // The user changes only to the principal of a successful authentication.
    ensures r.context.user == if AuthenticateCall in r.calls && auth.Succeeded() then Some(auth.principal) else ctx.user
    ensures r.context.isAuthenticatedRoute == ctx.isAuthenticatedRoute && r.context.path == ctx.path
  {
    if !ctx.isAuthenticatedRoute then
      GateRun(ctx, [NextCall])
    else if validator.HasAccess(ctx.path) then
      GateRun(ctx, [HasAccessCall(ctx.path), NextCall])
    else
      match auth
      case AuthSuccess(principal) =>
        GateRun(ctx.(user := Some(principal)), [HasAccessCall(ctx.path), AuthenticateCall, NextCall])
      case _ =>
        GateRun(ctx.(errors := ctx.errors + [UnauthenticatedError(UnauthenticatedMessage)]),
                [HasAccessCall(ctx.path), AuthenticateCall])
  }

  /** On a route that does not demand authentication, neither the registry
      nor the authentication result has any bearing on the run. */
  lemma OpenRouteIgnoresRegistryAndAuth(ctx: GateContext, v1: AnonymousRouteValidator, v2: AnonymousRouteValidator,
                                        a1: AuthenticateResult, a2: AuthenticateResult)
    requires !ctx.isAuthenticatedRoute
    ensures Gate(ctx, v1, a1) == Gate(ctx, v2, a2) == GateRun(ctx, [NextCall])
  {
  }

  /** On an anonymous path the authentication result has no bearing, and the user is unchanged. */
  lemma AnonymousPathIgnoresAuth(ctx: GateContext, v: AnonymousRouteValidator, a1: AuthenticateResult, a2: AuthenticateResult)
    requires ctx.isAuthenticatedRoute && v.HasAccess(ctx.path)
    ensures Gate(ctx, v, a1) == Gate(ctx, v, a2)
    ensures Gate(ctx, v, a1).context == ctx
  {
  }

  /** A failed authentication and one that produced no result are treated alike. */
  lemma FailureAndNoResultAlike(ctx: GateContext, v: AnonymousRouteValidator, message: string)
    ensures Gate(ctx, v, AuthFailure(message)) == Gate(ctx, v, NoResult)
  {
  }
}

/** The gateway's request pipeline as configured at start-up: a branch that
    answers the root path with the application name, then the async-routes
    middleware, then the resource-id middleware, then the proxy, whose
    authentication hook is the gate. Stages run in list order; a stage that
    does not continue ends the run. */
module Pipeline {
  import opened Wrappers
  import opened Http
  import opened Payload
  import opened AnonymousRoutes
  import opened AuthenticationGate
  import ResourceIdGenerator

  datatype StageName = MapRoot | AsyncRoutes | ResourceId | Ocelot

  /** The registration order of the gateway's own stages. */
  const PipelineOrder: seq<StageName> := [MapRoot, AsyncRoutes, ResourceId, Ocelot]

  /** The part of the downstream route the proxy matched that the gate reads. */
  datatype DownstreamRoute = DownstreamRoute(isAuthenticated: bool)

  /** Everything a request's run depends on besides the request: services
      shared by all requests, and the two per-request inputs that the code
      obtains from outside (the fresh GUID and the authentication result).
      `downstreamRoute` is the proxy's route lookup by method and path;
      `None` means no route matches. */
  datatype Env = Env(
    appName: string,
    asyncRoutes: HttpContext -> StageOutcome,
    codec: Codec,
    validator: AnonymousRouteValidator,
    downstreamRoute: (string, string) -> Option<DownstreamRoute>,
    forward: HttpContext -> Response,
    freshId: string,
    authenticate: AuthenticateResult)

  /** How a run ends: a response, a failure, or running past the last stage. */
  datatype Final = Responded(response: Response) | Failed(error: Error) | FellThrough(context: HttpContext)

  /** The end of a run, the stages it reached in order, and the context each
      of those stages was handed. */
  datatype Run = Run(final: Final, visited: seq<StageName>, inputs: seq<HttpContext>)

  function RouteOf(env: Env, ctx: HttpContext): Option<DownstreamRoute> {
    env.downstreamRoute(ctx.request.httpMethod, ctx.request.path)
  }

  /** The gate's view of a request the proxy matched to `route`. */
  function GateContextOf(route: DownstreamRoute, ctx: HttpContext): GateContext {
    GateContext(route.isAuthenticated, ctx.request.path, ctx.user, [])
  }

  /** The proxy stage: with no matching route the gate is never run; otherwise
      the gate runs first, an admitted request is forwarded with the user the
      gate settled on, and a rejected one fails with the gate's error. */
  function OcelotStage(env: Env, ctx: HttpContext): (r: StageOutcome)
    ensures !r.Continue?
    ensures RouteOf(env, ctx).None? ==> r == Fail(DownstreamRouteNotFound(ctx.request.httpMethod, ctx.request.path))
    ensures RouteOf(env, ctx).Some? ==>
      var run := Gate(GateContextOf(RouteOf(env, ctx).value, ctx), env.validator, env.authenticate);
      && (r.ShortCircuit? <==> run.Admitted())
      && (r.ShortCircuit? ==> r.response == env.forward(ctx.(user := run.context.user)))
      && (r.Fail? ==> r.error == UnauthenticatedError(UnauthenticatedMessage))
  {
    match RouteOf(env, ctx)
    case None => Fail(DownstreamRouteNotFound(ctx.request.httpMethod, ctx.request.path))
    case Some(route) =>
      var run := Gate(GateContextOf(route, ctx), env.validator, env.authenticate);
      if run.Admitted() then
        ShortCircuit(env.forward(ctx.(user := run.context.user)))
      else
        Fail(run.context.errors[0])
  }

  function Step(name: StageName, env: Env, ctx: HttpContext): StageOutcome
    requires IsGuidN(env.freshId)
  {
    match name
    case MapRoot => if ctx.request.path == "/" then ShortCircuit(TextResponse(env.appName)) else Continue(ctx)
    case AsyncRoutes => env.asyncRoutes(ctx)
    case ResourceId => ResourceIdGenerator.InvokeStage(env.codec, env.freshId, ctx)
    case Ocelot => OcelotStage(env, ctx)
  }

  /** How a run ends, given the outcome of the last stage it reached. */
  function FinalOf(outcome: StageOutcome): Final {
    match outcome
    case Continue(next) => FellThrough(next)
    case ShortCircuit(response) => Responded(response)
    case Fail(error) => Failed(error)
  }

  /** Runs `stages` in order, each on the context the previous one handed on. */
  function RunFrom(stages: seq<StageName>, env: Env, ctx: HttpContext): (r: Run)
    requires IsGuidN(env.freshId)
    // The stages reached are a prefix of the list, each with the context it was handed.
    ensures |r.visited| <= |stages| && r.visited == stages[..|r.visited|]
    ensures |r.inputs| == |r.visited|
    ensures stages == [] ==> r == Run(FellThrough(ctx), [], [])
    ensures stages != [] ==> |r.visited| >= 1 && r.inputs[0] == ctx
    // Every reached stage but the last continued, handing on the next one's context ...
    ensures forall k :: 0 <= k < |r.visited| - 1 ==> Step(r.visited[k], env, r.inputs[k]) == Continue(r.inputs[k + 1])
    // ... and the last one's outcome is how the run ends.
    ensures stages != [] ==> r.final == FinalOf(Step(r.visited[|r.visited| - 1], env, r.inputs[|r.visited| - 1]))
    // A run stops early only because a stage answered or failed.
    ensures r.final.FellThrough? ==> r.visited == stages
    decreases |stages|
  {
    if stages == [] then
      Run(FellThrough(ctx), [], [])
    else
      match Step(stages[0], env, ctx)
      case Continue(next) =>
        var rest := RunFrom(stages[1..], env, next);
        Run(rest.final, [stages[0]] + rest.visited, [ctx] + rest.inputs)
      case ShortCircuit(response) => Run(Responded(response), [stages[0]], [ctx])
      case Fail(error) => Run(Failed(error), [stages[0]], [ctx])
  }

  /** Running `first + second` is running `first` and, if the request falls
      through it, running `second` on the context it falls through with. */
  lemma {:induction false} RunConcat(first: seq<StageName>, second: seq<StageName>, env: Env, ctx: HttpContext)
    requires IsGuidN(env.freshId)
    ensures var r1 := RunFrom(first, env, ctx);
            RunFrom(first + second, env, ctx)
            == if r1.final.FellThrough? then
                 var r2 := RunFrom(second, env, r1.final.context); Run(r2.final, r1.visited + r2.visited, r1.inputs + r2.inputs)
               else r1
    decreases |first|
  {
    if first == [] {
      assert first + second == second;
    } else {
      assert (first + second)[0] == first[0];
      assert (first + second)[1..] == first[1..] + second;
      var o := Step(first[0], env, ctx);
      if o.Continue? {
        RunConcat(first[1..], second, env, o.next);
        var r1 := RunFrom(first[1..], env, o.next);
        if r1.final.FellThrough? {
          var r2 := RunFrom(second, env, r1.final.context);
          assert [first[0]] + (r1.visited + r2.visited) == ([first[0]] + r1.visited) + r2.visited;
          assert [ctx] + (r1.inputs + r2.inputs) == ([ctx] + r1.inputs) + r2.inputs;
        }
      }
    }
  }

  function HandleRequest(env: Env, ctx: HttpContext): (r: Run)
    requires IsGuidN(env.freshId)
    // Stages are reached in registration order, and the proxy always ends the run.
    ensures 1 <= |r.visited| <= |PipelineOrder| && r.visited == PipelineOrder[..|r.visited|]
    ensures !r.final.FellThrough?
    // The root path is answered with the application name and reaches no other stage.
    ensures ctx.request.path == "/" <==> r.visited == [MapRoot]
    ensures ctx.request.path == "/" ==> r.final == Responded(TextResponse(env.appName))
  {
    RunFrom(PipelineOrder, env, ctx)
  }

  /** An async route that answers the request ends the run there: the
      resource-id stage and the proxy (and with it the gate) are never reached. */
  lemma AsyncAnswerSkipsLaterStages(env: Env, ctx: HttpContext)
    requires IsGuidN(env.freshId)
    requires ctx.request.path != "/" && env.asyncRoutes(ctx).ShortCircuit?
    ensures HandleRequest(env, ctx) == Run(Responded(env.asyncRoutes(ctx).response), [MapRoot, AsyncRoutes], [ctx, ctx])
  {
  }

  /** A POST whose body the payload builder rejects fails at the resource-id
      stage: the proxy, and with it the gate, is never reached. */
  lemma MalformedPostNeverReachesGate(env: Env, ctx: HttpContext)
    requires IsGuidN(env.freshId)
    requires ctx.request.path != "/" && env.asyncRoutes(ctx).Continue?
    requires var c1 := env.asyncRoutes(ctx).next;
             c1.request.httpMethod == ResourceIdGenerator.Post && env.codec.parse(c1.request.body).Failure?
    ensures var c1 := env.asyncRoutes(ctx).next;
            HandleRequest(env, ctx)
            == Run(Failed(MalformedPayload(env.codec.parse(c1.request.body).error)), [MapRoot, AsyncRoutes, ResourceId], [ctx, ctx, c1])
  {
  }

  /** A request that passes the first three stages reaches the proxy with the
      context the resource-id stage handed on; with a matching route it is
      forwarded iff the gate admits it, and otherwise fails with the
      unauthenticated error. */
  lemma ProxyForwardsOnlyAdmitted(env: Env, ctx: HttpContext)
    requires IsGuidN(env.freshId)
    requires ctx.request.path != "/" && env.asyncRoutes(ctx).Continue?
    requires ResourceIdGenerator.InvokeStage(env.codec, env.freshId, env.asyncRoutes(ctx).next).Continue?
    ensures var c1 := env.asyncRoutes(ctx).next;
            var c2 := ResourceIdGenerator.InvokeStage(env.codec, env.freshId, c1).next;
            && HandleRequest(env, ctx).visited == PipelineOrder
            && HandleRequest(env, ctx).inputs == [ctx, ctx, c1, c2]
            && (RouteOf(env, c2).Some? ==>
                 var gate := Gate(GateContextOf(RouteOf(env, c2).value, c2), env.validator, env.authenticate);
                 HandleRequest(env, ctx).final
                 == if gate.Admitted() then Responded(env.forward(c2.(user := gate.context.user)))
                    else Failed(UnauthenticatedError(UnauthenticatedMessage)))
  {
    var c1 := env.asyncRoutes(ctx).next;
    var c2 := ResourceIdGenerator.InvokeStage(env.codec, env.freshId, c1).next;
    assert PipelineOrder[1..] == [AsyncRoutes, ResourceId, Ocelot];
    assert [AsyncRoutes, ResourceId, Ocelot][1..] == [ResourceId, Ocelot];
    assert [ResourceId, Ocelot][1..] == [Ocelot];
    assert RunFrom([Ocelot], env, c2).visited == [Ocelot];
  }

  /** A request whose method is not POST reaches the proxy exactly as the
      async-routes stage handed it on. */
  lemma NonPostReachesProxyUnchanged(env: Env, ctx: HttpContext)
    requires IsGuidN(env.freshId)
    requires ctx.request.path != "/" && env.asyncRoutes(ctx).Continue?
    requires env.asyncRoutes(ctx).next.request.httpMethod != ResourceIdGenerator.Post
    ensures var c1 := env.asyncRoutes(ctx).next;
            && HandleRequest(env, ctx).visited == PipelineOrder
            && HandleRequest(env, ctx).inputs == [ctx, ctx, c1, c1]
            && HandleRequest(env, ctx).final == FinalOf(OcelotStage(env, c1))
  {
  }
}

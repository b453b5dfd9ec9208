# Pacco API gateway: request classification, modelled in Dafny

This project models how the Pacco API gateway (an ASP.NET Core host in
front of the Ocelot reverse proxy) classifies and rewrites each request.
It has three parts:

- **Anonymous route registry** (`AnonymousRoutes`). This is the set of paths
  exempt from authentication. It is built from the `AnonymousRoutes`
  configuration, and a missing list counts as empty. Queries use exact
  string membership.
- **Authentication gate** (`AuthenticationGate`). This is the hook the gateway
  installs as Ocelot's authentication middleware. A route that does not
  demand authentication is admitted. A path in the registry is admitted
  without authenticating. Any other request is authenticated: on success
  the user is set to the returned principal and the request is admitted;
  otherwise an `UnauthenticatedError` is recorded and the next stage is
  never invoked. The gate returns the calls it made (registry query,
  authentication, next stage) as a trace. That makes "not consulted" and
  "never invoked" statable.
- **Resource-id stage** (`ResourceIdGenerator`). A request whose method is not
  exactly `"POST"` passes through untouched. For a POST, the body is
  parsed. A fresh id in GUID "N" form (32 lower-case hex digits) is stamped
  onto the payload only if the payload is a JSON object. The id is recorded
  in request state whatever the payload's shape. The body is replaced by
  the serialisation of the possibly stamped payload.

These parts are tied together by `Pipeline`, which lists the stages in the
order the start-up code registers them:

1. the root branch: a request for exactly `/` is answered with the
   application name and goes no further;
2. the async-routes middleware;
3. the resource-id middleware;
4. the Ocelot proxy, with the gate as its authentication hook.

Each stage is a pure function from the request context to an outcome:
`Continue(next)`, `ShortCircuit(response)` or `Fail(error)`. `Continue`
means "call the next stage exactly once, with this context". `RunFrom`
runs the stage list and also returns the stages the request reached.

JSON is a tagged variant: object / array / scalar / null. Some things are
parameters of the model rather than part of it:

- the payload builder's parser, the serialiser and the `SetResourceId`
  extension (a `Codec` value);
- the async-routes middleware and the proxy's forwarding (function values
  in `Env`);
- the per-request fresh GUID and authentication result (plain values in
  `Env`).

`HasAccess` is a predicate over an immutable datatype value. So the registry
is unchanged by any number of queries, and every query gets the same answer
as a fresh one. This holds by construction, so no member states it.

Three points about the code fix the model's shape:

- **Stage order.** The async-routes middleware runs before the resource-id
  stage, and the gate runs last, inside Ocelot
  (`src/Pacco.APIGateway.Ocelot/Program.cs:85-87`). So a request that the
  async-routes middleware answers never reaches the resource-id stage or the
  gate (`Pipeline.AsyncAnswerSkipsLaterStages`).
- **Which methods get an id.** Only the exact method `POST` gets an id. The
  comparison is ordinal, so `post`, `PUT` and `PATCH` pass through.
- **Parse failures.** A body the payload builder rejects fails the stage
  with `MalformedPayload`. Nothing is recorded and the next stage is not
  invoked (`Pipeline.MalformedPostNeverReachesGate`).

## Model

| member | source | states |
|---|---|---|
| `AnonymousRoutes.ConfiguredRoutes` | src/Pacco.APIGateway.Ocelot/Infrastructure/AnonymousRouteValidator.cs:14 | a path is in the configured set iff the configured list is present and contains it; a missing list gives the empty set |
| `AnonymousRoutes.NewValidator` | src/Pacco.APIGateway.Ocelot/Infrastructure/AnonymousRouteValidator.cs:12-17 | the constructor enumerates the list into a set such that `HasAccess(p)` holds iff `p` is one of the configured strings (none when the list is missing) |
| `AnonymousRoutes.MissingListGrantsNothing` | src/Pacco.APIGateway.Ocelot/Infrastructure/AnonymousRouteValidator.cs:14 | with no `Routes` list configured, `HasAccess` is false for every path |
| `AnonymousRoutes.DuplicatesDoNotMatter` | src/Pacco.APIGateway.Ocelot/Infrastructure/AnonymousRouteValidator.cs:14 | two lists with the same members, however repeated or ordered, build the same set |
| `AnonymousRoutes.ExactMatch` | src/Pacco.APIGateway.Ocelot/Infrastructure/AnonymousRouteValidator.cs:17 | matching is exact: with `/health` configured, `/Health` and `/health/` are not anonymous |
| `AuthenticationGate.Gate` | src/Pacco.APIGateway.Ocelot/Program.cs:96-120 | admitted (next invoked, exactly once and last) iff the route is open, or the path is anonymous, or authentication succeeded; the registry is queried iff the route demands authentication; authentication is attempted iff the route demands it and the path is not anonymous; on admission the errors are untouched; on rejection exactly one `UnauthenticatedError` is appended; the user changes only to a successful authentication's principal |
| `AuthenticationGate.OpenRouteIgnoresRegistryAndAuth` | src/Pacco.APIGateway.Ocelot/Program.cs:98-102 | on a route not demanding authentication, the run is `[next]` with the context unchanged, whatever the registry and the authentication result |
| `AuthenticationGate.AnonymousPathIgnoresAuth` | src/Pacco.APIGateway.Ocelot/Program.cs:104-109 | on an anonymous path, the authentication result has no bearing and the context (user included) is unchanged |
| `AuthenticationGate.FailureAndNoResultAlike` | src/Pacco.APIGateway.Ocelot/Program.cs:111-119 | an authentication failure and "no result" lead to the same run |
| `Payload.SetIfObject` | src/Pacco.APIGateway.Ocelot/Infrastructure/ResourceIdGeneratorMiddleware.cs:30-33 | stamping keeps the value's shape; an array, scalar or null comes back unchanged; an object gets the extension's members for the id |
| `ResourceIdGenerator.InvokeStage` | src/Pacco.APIGateway.Ocelot/Infrastructure/ResourceIdGeneratorMiddleware.cs:20-39 | a method other than exactly `POST` continues with the context unchanged; the stage never answers the request itself; it fails iff a POST body does not parse; only the body and recorded id change; a POST records the fresh "N"-form id whatever the payload's shape; the new body is the serialisation of the payload with the recorded id stamped on if it is an object, and of the unmodified payload otherwise |
| `ResourceIdGenerator.StampedBodyRoundTrip` | src/Pacco.APIGateway.Ocelot/Infrastructure/ResourceIdGeneratorMiddleware.cs:28-37 | with a lossless codec, the body handed on parses back to the stamped payload; a non-object payload parses back to what the caller sent |
| `ResourceIdGenerator.MethodMatchIsCaseSensitive` | src/Pacco.APIGateway.Ocelot/Infrastructure/ResourceIdGeneratorMiddleware.cs:22-26 | a lower-case `post` passes through untouched |
| `Pipeline.OcelotStage` | src/Pacco.APIGateway.Ocelot/Program.cs:93-120 | the proxy stage never continues; with no route for the method and path it fails without running the gate; with a route, it answers iff the gate admits, and the answer is the forwarded response for the context carrying the gate's user; otherwise it fails with the unauthenticated error |
| `Pipeline.RunFrom` | src/Pacco.APIGateway.Ocelot/Program.cs:77-87 | stages are reached in list order (a prefix of the list, at least the first), the first with the caller's context; every reached stage but the last continued, handing the next one its context; the run ends as the last reached stage's outcome says (its response, its failure, or falling through with its context); falling through happens only after the whole list |
| `Pipeline.RunConcat` | src/Pacco.APIGateway.Ocelot/Program.cs:77-87 | the chain composes: running two stage lists back to back equals running the first and, only if the request falls through it, the second on the context it was handed, with the reached stages concatenated |
| `Pipeline.HandleRequest` | src/Pacco.APIGateway.Ocelot/Program.cs:77-87 | stages are reached in the order root branch, async routes, resource id, proxy; the proxy always ends the run; a request reaches only the root branch iff its path is exactly `/`, and is then answered with the application name |
| `Pipeline.AsyncAnswerSkipsLaterStages` | src/Pacco.APIGateway.Ocelot/Program.cs:85-87 | when the async-routes middleware answers, the run ends there and the resource-id stage and the gate are never reached |
| `Pipeline.MalformedPostNeverReachesGate` | src/Pacco.APIGateway.Ocelot/Infrastructure/ResourceIdGeneratorMiddleware.cs:22-28 | a POST whose body the payload builder rejects ends the run at the resource-id stage with `MalformedPayload`; the proxy and the gate are never reached |
| `Pipeline.ProxyForwardsOnlyAdmitted` | src/Pacco.APIGateway.Ocelot/Program.cs:85-120 | a request passing the first three stages reaches all four, the proxy with the resource-id stage's context; when a route matches, it is forwarded (with the gate's user) iff admitted, and otherwise fails as unauthenticated |
| `Pipeline.NonPostReachesProxyUnchanged` | src/Pacco.APIGateway.Ocelot/Program.cs:85-87 | a non-POST request that the async-routes stage hands on reaches the proxy with exactly that context, and the run ends as the proxy stage decides for it |

## Left out

- Host building, configuration loading, dependency registration, Vault, metrics and logging (`Program.cs:28-69`, `89-91`). These are start-up plumbing.
- The middleware registered before the root branch (`UseConvey`, the error handler, the access-token validator, `UseAuthentication`, `UseRabbitMq`, `Program.cs:72-76`). They are library code; the model starts at the root branch.
- The async-routes middleware, the payload builder, the correlation-context builder and handler, and the `SetResourceId` / `SetResourceIdFoRequest` extensions. Their bodies are not part of this model. They appear as opaque parameters: `Env.asyncRoutes`, `Codec.parse`, `Codec.setResourceId`, and the `resourceId` field of the request context. Nothing is claimed about the name of the stamped field, about other members being kept, or about the message envelope.
- The configuration shapes `AsyncRoutesOptions` and `AsyncRouteOptions`, and the interfaces `IPayloadBuilder` and `ICorrelationContextBuilder`. They carry no behaviour.
- Ocelot's route matching, forwarding and retries, and its mapping of errors to HTTP statuses (400 / 401 / 502). Route matching (upstream path template, method and host) is folded into the parameter `Env.downstreamRoute`, keyed on method and path. Its `None` stands for an unmatched route, where the proxy fails before the gate runs; the host is not modelled. Forwarding is `Env.forward`.
- JSON byte encoding, UTF-8 and the replacement of the body stream. The new body is `Codec.serialize` of the payload.
- GUID randomness. The fresh id is a parameter that must be in "N" form. The authentication handler is likewise an input value (`AuthenticateResult`) rather than a call.
- Async/await, cancellation and concurrency between requests. Every operation is a pure function of its inputs.

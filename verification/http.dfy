/** The slice of an ASP.NET Core request that the gateway's own code reads
    and writes, and the outcome of one middleware stage. */
module Http {
  import opened Wrappers

  /** Request and response bodies are byte streams; their encoding is not modelled. */
  type Bytes = seq<bv8>

  /** The identity an authentication handler resolves. Its claims are opaque here. */
  datatype Principal = Principal(identity: string)

  datatype Request = Request(httpMethod: string, path: string, body: Bytes)

  /** The per-request context: the request itself, the current user, and the
      request-scoped resource id recorded by the resource-id stage. */
  datatype HttpContext = HttpContext(request: Request, user: Option<Principal>, resourceId: Option<string>)

  /** What is written back to the caller: plain text (the root branch) or a
      response produced by a collaborator (the proxied downstream response or
      the acceptance of an asynchronous route). */
  datatype Response = TextResponse(text: string) | StatusResponse(status: int, body: Bytes)

  datatype Error =
    | UnauthenticatedError(message: string)
    | MalformedPayload(reason: string)
    | DownstreamRouteNotFound(httpMethod: string, path: string)
    | CollaboratorError(message: string)

  /** One middleware stage either calls the next stage exactly once, with the
      context it hands on, or answers the request itself, or fails it. */
  datatype StageOutcome =
    | Continue(next: HttpContext)
    | ShortCircuit(response: Response)
    | Fail(error: Error)
}

/** The resource-id middleware: on a POST it parses the body, stamps a fresh
    id onto object payloads, records the id in request state and replaces
    the body by the re-serialised payload. The fresh id is a parameter. */
module ResourceIdGenerator {
  import opened Wrappers
  import opened Http
  import opened Payload

  /** The only method the stage acts on; the comparison is ordinal. */
  const Post: string := "POST"

  function InvokeStage(codec: Codec, freshId: string, ctx: HttpContext): (r: StageOutcome)
    requires IsGuidN(freshId)
    // Any other method: the next stage gets the context untouched.
    ensures ctx.request.httpMethod != Post ==> r == Continue(ctx)
    // The stage never answers the request itself, and fails only on an unparseable POST body.
    ensures !r.ShortCircuit?
    ensures r.Fail? <==> ctx.request.httpMethod == Post && codec.parse(ctx.request.body).Failure?
    ensures r.Fail? ==> r.error == MalformedPayload(codec.parse(ctx.request.body).error)
    // Only the body and the recorded resource id may differ in the context handed on.
    ensures r.Continue? ==>
      r.next.(request := r.next.request.(body := ctx.request.body), resourceId := ctx.resourceId) == ctx
    // A POST records an id of the "N" form, whatever the payload's shape.
    ensures r.Continue? && ctx.request.httpMethod == Post ==>
      r.next.resourceId.Some? && IsGuidN(r.next.resourceId.value) && r.next.resourceId.value == freshId
    // The new body is the serialised payload: the id recorded is the id stamped onto an object ...
    ensures r.Continue? && ctx.request.httpMethod == Post && codec.parse(ctx.request.body).value.JObject? ==>
      r.next.request.body == codec.serialize(JObject(codec.setResourceId(codec.parse(ctx.request.body).value.members, r.next.resourceId.value)))
    // ... and any other shape is re-serialised unmodified.
    ensures r.Continue? && ctx.request.httpMethod == Post && !codec.parse(ctx.request.body).value.JObject? ==>
      r.next.request.body == codec.serialize(codec.parse(ctx.request.body).value)
  {
    if ctx.request.httpMethod != Post then
      Continue(ctx)
    else
      match codec.parse(ctx.request.body)
      case Failure(reason) => Fail(MalformedPayload(reason))
      case Success(message) =>
        var stamped := SetIfObject(message, freshId, codec.setResourceId);
        Continue(ctx.(request := ctx.request.(body := codec.serialize(stamped)), resourceId := Some(freshId)))
  }

  /** Given a lossless codec, the body handed on parses back to the stamped
      payload, and a non-object payload parses back to what the caller sent. */
  lemma StampedBodyRoundTrip(codec: Codec, freshId: string, ctx: HttpContext)
    requires IsGuidN(freshId)
    requires Lossless(codec)
    requires ctx.request.httpMethod == Post && codec.parse(ctx.request.body).Success?
    ensures var r := InvokeStage(codec, freshId, ctx);
      && r.Continue?
      && codec.parse(r.next.request.body) == Success(SetIfObject(codec.parse(ctx.request.body).value, freshId, codec.setResourceId))
      && (!codec.parse(ctx.request.body).value.JObject? ==> codec.parse(r.next.request.body) == codec.parse(ctx.request.body))
  {
  }

  /** The method check is exact: a lower-case "post" passes through untouched. */
  lemma MethodMatchIsCaseSensitive(codec: Codec, freshId: string, ctx: HttpContext)
    requires IsGuidN(freshId)
    requires ctx.request.httpMethod == "post"
    ensures InvokeStage(codec, freshId, ctx) == Continue(ctx)
  {
  }
}

/** The boundary between the orchestration flows and the hosted model provider.
    A provider call is a black box: it either raises an exception or completes,
    and a completed call may still carry no usable (structured) output. */
module Provider {

  datatype Option<+T> = None | Some(value: T)

  datatype Result<+T, +E> = Success(value: T) | Failure(error: E)

  /** What one provider call gives back. */
  datatype Reply<+T> =
    | Threw(message: string)          // the call raised; the message is the provider's
    | Returned(output: Option<T>)     // the call completed; its output may be missing

  /** Why a flow failed. */
  datatype Error =
    | ProviderError(message: string)  // a provider exception, propagated unchanged
    | MissingOutput                   // a `!` on an output the provider did not supply
    | SchemaViolation                 // a flow input or output rejected by its schema
    | NoRecommendations               // the explicit throw of the recommendation flow

  /** A multi-call flow part-way through: still going with state `state`, or
      stopped by `error`; either way `trace` lists the calls made so far. */
  datatype Progress<+S, +C> =
    | Going(state: S, trace: seq<C>)
    | Halted(error: Error, trace: seq<C>)

  /** The reply the provider gave to the `k`-th call of `trace`, which it saw
      after the calls before it. */
  function ReplyTo<C, T>(respond: (seq<C>, C) -> Reply<T>, trace: seq<C>, k: nat): Reply<T>
    requires k < |trace|
  {
    respond(trace[..k], trace[k])
  }

  /** The text a reply carries, or "" when it carries none. */
  function TextOf(reply: Reply<string>): string
  {
    if reply.Returned? && reply.output.Some? then reply.output.value else ""
  }

  /** Replies to calls already made do not change when more calls follow. */
  lemma ReplyToExtended<C, T>(respond: (seq<C>, C) -> Reply<T>, trace: seq<C>, more: seq<C>, k: nat)
    requires k < |trace|
    ensures ReplyTo(respond, trace + more, k) == ReplyTo(respond, trace, k)
  {
    assert (trace + more)[..k] == trace[..k];
  }

  const NoRecommendationsMessage: string := "No output received from AI for recommendations."

  /** The wording the JavaScript runtime (for a `!` on a missing value) and the
      schema library (for a rejected input or output) give their errors. The
      source does not fix it, so the model takes it as a parameter. */
  datatype LibraryText = LibraryText(missingOutput: string, schemaViolation: string)

  /** The `message` of the JavaScript Error a failure surfaces as: a provider's
      own message and the recommendation flow's text pass through, the other two
      kinds carry the library's wording. */
  function Message(e: Error, library: LibraryText): string
  {
    match e
    case ProviderError(msg) => msg
    case MissingOutput => library.missingOutput
    case SchemaViolation => library.schemaViolation
    case NoRecommendations => NoRecommendationsMessage
  }
}

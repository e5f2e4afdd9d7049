/**
 * The `EmbeddingProvider` abstraction of src/embedding/mod.rs: what an
 * embedding is, what one call to `embed` does on the wire, and the contract
 * every vendor's `embed` keeps whatever its request and envelope shapes.
 */
module EmbeddingProvider {
  import opened Common
  import opened Http
  import opened Errors

  /** `Vec<f32>`, with the floats as real numbers. */
  type Embedding = seq<real>

  /** One element of the `data` array in the OpenAI-style envelope that both OpenAI and Anthropic return. */
  datatype EmbeddingObject = EmbeddingObject(embedding: Embedding)

  /** The vectors of a parsed `data` envelope, in order. */
  function DataVectors(parsed: Result<seq<EmbeddingObject>, string>): (v: Result<seq<Embedding>, string>)
    ensures parsed.Ok? <==> v.Ok?
    ensures parsed.Err? ==> v.error == parsed.error
    ensures v.Ok? ==> |v.value| == |parsed.value| && forall i :: 0 <= i < |v.value| ==> v.value[i] == parsed.value[i].embedding
  {
    match parsed
    case Ok(data) => Ok(seq(|data|, i requires 0 <= i < |data| => data[i].embedding))
    case Err(e) => Err(e)
  }

  /**
   * One call to `embed`: the request it sent (none when it failed before
   * sending) and what it returned.
   */
  datatype EmbedCall = EmbedCall(sent: Option<Request>, result: Result<Embedding, EmbeddingError>)

  /**
   * The vendor-independent contract of `embed`, given the reply to its request
   * and the vectors of the vendor's envelope (`Err` when the body did not parse):
   * - no request means the credentials were refused up front;
   * - a transport failure is an HTTP error;
   * - a non-2xx status is an authentication error (only for 401 and 403) or a
   *   provider error carrying that status and the body text (empty if unreadable);
   * - a 2xx yields the first vector, or an invalid-response error when the body
   *   did not parse or held no vector.
   */
  predicate KeepsEmbedContract(reply: Reply, vectors: Result<seq<Embedding>, string>, call: EmbedCall) {
    if call.sent.None? then
      call.result == Err(AuthenticationError)
    else match reply
      case TransportError(reason) =>
        call.result == Err(HttpError(reason))
      case Response(status, body) =>
        if !IsSuccess(status) then
          || (call.result == Err(AuthenticationError) && (status == 401 || status == 403))
          || call.result == Err(ProviderError(status, body.UnwrapOr("")))
        else if vectors.Ok? && |vectors.value| > 0 then
          call.result == Ok(vectors.value[0])
        else
          call.result.Err? && call.result.error.InvalidResponse?
  }

  /** Under the contract a call succeeds exactly when a request got a 2xx reply carrying at least one vector. */
  lemma SuccessNeedsVector(reply: Reply, vectors: Result<seq<Embedding>, string>, call: EmbedCall)
    requires KeepsEmbedContract(reply, vectors, call)
    ensures call.result.Ok? <==>
      call.sent.Some? && reply.Response? && IsSuccess(reply.status) && vectors.Ok? && |vectors.value| > 0
    ensures call.result.Ok? ==> call.result.value == vectors.value[0]
  {
  }
}

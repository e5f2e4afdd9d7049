/**
 * The OpenAI-compatible provider (src/embedding/openai.rs):
 * `POST {base_url}/v1/embeddings` with `{"model", "input"}` and an optional
 * bearer token; the reply envelope is `{"data": [{"embedding": [...]}, ...]}`.
 */
module OpenAI {
  import opened Common
  import opened Http
  import opened Errors
  import Config
  import opened EmbeddingProvider

  datatype OpenAIProvider = OpenAIProvider(baseUrl: string, model: string, apiKey: string)

  /** `OpenAIProvider::new`: trailing slashes trimmed off the base URL, a missing key becomes empty. */
  function New(cfg: Config.ProviderConfig): (p: OpenAIProvider)
    ensures p.baseUrl <= cfg.baseUrl && (p.baseUrl == [] || p.baseUrl[|p.baseUrl| - 1] != '/')
    ensures forall i :: |p.baseUrl| <= i < |cfg.baseUrl| ==> cfg.baseUrl[i] == '/'
    ensures p.model == cfg.model
    ensures cfg.apiKey.Some? ==> p.apiKey == cfg.apiKey.value
    ensures cfg.apiKey.None? ==> p.apiKey == ""
  {
    OpenAIProvider(TrimEndSlashes(cfg.baseUrl), cfg.model, cfg.apiKey.UnwrapOr(""))
  }

  /** The request `embed` sends: a bearer token only when the key is non-empty. */
  function EmbedRequest(p: OpenAIProvider, text: string): (r: Request)
    ensures r.verb == Post && r.url == p.baseUrl + "/v1/embeddings"
    ensures "Authorization" in r.headers <==> p.apiKey != ""
    ensures "Authorization" in r.headers ==> r.headers["Authorization"] == "Bearer " + p.apiKey
    ensures r.headers.Keys <= {"Authorization"}
    ensures r.body == Some(JObject(map["model" := JString(p.model), "input" := JString(text)]))
  {
    var headers := if p.apiKey != "" then map["Authorization" := "Bearer " + p.apiKey] else map[];
    Request(Post, p.baseUrl + "/v1/embeddings", headers, Some(JObject(map["model" := JString(p.model), "input" := JString(text)])))
  }

  /**
   * `embed`: 401 and 403 are authentication errors, any other non-2xx a
   * provider error, and a 2xx reply yields the first `data` element's vector.
   */
  function Embed(p: OpenAIProvider, text: string, reply: Reply, parsed: Result<seq<EmbeddingObject>, string>): (call: EmbedCall)
    ensures call.sent == Some(EmbedRequest(p, text))
    ensures KeepsEmbedContract(reply, DataVectors(parsed), call)
    ensures reply.Response? && (reply.status == 401 || reply.status == 403) ==> call.result == Err(AuthenticationError)
  {
    var sent := Some(EmbedRequest(p, text));
    match reply
    case TransportError(reason) => EmbedCall(sent, Err(HttpError(reason)))
    case Response(status, body) =>
      if status == 401 || status == 403 then EmbedCall(sent, Err(AuthenticationError))
      else if !IsSuccess(status) then EmbedCall(sent, Err(ProviderError(status, body.UnwrapOr(""))))
      else match parsed
        case Err(e) => EmbedCall(sent, Err(InvalidResponse("Failed to parse OpenAI response: " + e)))
        case Ok(data) =>
          if |data| == 0 then EmbedCall(sent, Err(InvalidResponse("Empty data array")))
          else EmbedCall(sent, Ok(data[0].embedding))
  }

  /** The endpoint and the bearer rule, stated from the provider's configuration. */
  lemma RequestFromConfig(cfg: Config.ProviderConfig, text: string)
    ensures EmbedRequest(New(cfg), text).url == TrimEndSlashes(cfg.baseUrl) + "/v1/embeddings"
    ensures "Authorization" in EmbedRequest(New(cfg), text).headers <==> cfg.apiKey.Some? && cfg.apiKey.value != ""
  {
  }
}

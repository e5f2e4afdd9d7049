/**
 * The Anthropic provider (src/embedding/claude.rs): `POST {base_url}/v1/embeddings`
 * with headers `x-api-key` and `anthropic-version`, the input as a one-element
 * list, and the reply envelope `{"data": [{"embedding": [...]}, ...]}`.
 */
module Claude {
  import opened Common
  import opened Http
  import opened Errors
  import Config
  import opened EmbeddingProvider

  const AnthropicVersion := "2023-06-01"

  datatype ClaudeProvider = ClaudeProvider(baseUrl: string, model: string, apiKey: string)

  /** `ClaudeProvider::new`: trailing slashes trimmed off the base URL, a missing key becomes empty. */
  function New(cfg: Config.ProviderConfig): (p: ClaudeProvider)
    ensures p.baseUrl <= cfg.baseUrl && (p.baseUrl == [] || p.baseUrl[|p.baseUrl| - 1] != '/')
    ensures forall i :: |p.baseUrl| <= i < |cfg.baseUrl| ==> cfg.baseUrl[i] == '/'
    ensures p.model == cfg.model
    ensures cfg.apiKey.Some? ==> p.apiKey == cfg.apiKey.value
    ensures cfg.apiKey.None? ==> p.apiKey == ""
  {
    ClaudeProvider(TrimEndSlashes(cfg.baseUrl), cfg.model, cfg.apiKey.UnwrapOr(""))
  }

  /** The request `embed` sends once the key is known to be non-empty. */
  function EmbedRequest(p: ClaudeProvider, text: string): (r: Request)
    ensures r.verb == Post && r.url == p.baseUrl + "/v1/embeddings"
    ensures r.headers == map["x-api-key" := p.apiKey, "anthropic-version" := "2023-06-01"]
    ensures r.body == Some(JObject(map["model" := JString(p.model), "input" := JArray([JString(text)])]))
  {
    var headers := map["x-api-key" := p.apiKey, "anthropic-version" := AnthropicVersion];
    Request(Post, p.baseUrl + "/v1/embeddings", headers, Some(JObject(map["model" := JString(p.model), "input" := JArray([JString(text)])])))
  }

  /**
   * `embed`: an empty key fails before any request; then 401 and 403 are
   * authentication errors, any other non-2xx a provider error, and a 2xx
   * reply yields the first `data` element's vector.
   */
  function Embed(p: ClaudeProvider, text: string, reply: Reply, parsed: Result<seq<EmbeddingObject>, string>): (call: EmbedCall)
    ensures p.apiKey == "" <==> call.sent.None?
    ensures p.apiKey == "" ==> call.result == Err(AuthenticationError)
    ensures p.apiKey != "" ==> call.sent == Some(EmbedRequest(p, text))
    ensures KeepsEmbedContract(reply, DataVectors(parsed), call)
    ensures reply.Response? && (reply.status == 401 || reply.status == 403) ==> call.result == Err(AuthenticationError)
  {
    if p.apiKey == "" then EmbedCall(None, Err(AuthenticationError))
    else
      var sent := Some(EmbedRequest(p, text));
      match reply
      case TransportError(reason) => EmbedCall(sent, Err(HttpError(reason)))
      case Response(status, body) =>
        if status == 401 || status == 403 then EmbedCall(sent, Err(AuthenticationError))
        else if !IsSuccess(status) then EmbedCall(sent, Err(ProviderError(status, body.UnwrapOr(""))))
        else match parsed
          case Err(e) => EmbedCall(sent, Err(InvalidResponse("Failed to parse Claude response: " + e)))
          case Ok(data) =>
            if |data| == 0 then EmbedCall(sent, Err(InvalidResponse("Empty data array")))
            else EmbedCall(sent, Ok(data[0].embedding))
  }

  /** A configuration without a key, or with an empty one, never reaches the network. */
  lemma MissingKeyNeverSends(cfg: Config.ProviderConfig, text: string, reply: Reply, parsed: Result<seq<EmbeddingObject>, string>)
    requires cfg.apiKey.None? || cfg.apiKey == Some("")
    ensures Embed(New(cfg), text, reply, parsed) == EmbedCall(None, Err(AuthenticationError))
  {
  }
}

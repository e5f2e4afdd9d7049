/**
 * The Ollama provider (src/embedding/ollama.rs): `POST {base_url}/api/embed`
 * with `{"model", "input"}` and no authentication; the reply envelope is
 * `{"embeddings": [[...], ...]}`.
 */
module Ollama {
  import opened Common
  import opened Http
  import opened Errors
  import Config
  import opened EmbeddingProvider

  datatype OllamaProvider = OllamaProvider(baseUrl: string, model: string)

  /** `OllamaProvider::new`: trailing slashes trimmed off the base URL; the key is not kept. */
  function New(cfg: Config.ProviderConfig): (p: OllamaProvider)
    ensures p.baseUrl <= cfg.baseUrl && (p.baseUrl == [] || p.baseUrl[|p.baseUrl| - 1] != '/')
    ensures forall i :: |p.baseUrl| <= i < |cfg.baseUrl| ==> cfg.baseUrl[i] == '/'
    ensures p.model == cfg.model
  {
    OllamaProvider(TrimEndSlashes(cfg.baseUrl), cfg.model)
  }

  /** The request `embed` sends: never any header of its own. */
  function EmbedRequest(p: OllamaProvider, text: string): (r: Request)
    ensures r.verb == Post && r.url == p.baseUrl + "/api/embed"
    ensures r.headers == map[]
    ensures r.body == Some(JObject(map["model" := JString(p.model), "input" := JString(text)]))
  {
    Request(Post, p.baseUrl + "/api/embed", map[], Some(JObject(map["model" := JString(p.model), "input" := JString(text)])))
  }

  /**
   * `embed`: every non-2xx status, 401 and 403 included, is a provider error
   * carrying that status; a 2xx reply yields the first of `embeddings`.
   */
  function Embed(p: OllamaProvider, text: string, reply: Reply, parsed: Result<seq<Embedding>, string>): (call: EmbedCall)
    ensures call.sent == Some(EmbedRequest(p, text))
    ensures KeepsEmbedContract(reply, parsed, call)
    ensures reply.Response? && !IsSuccess(reply.status) ==> call.result == Err(ProviderError(reply.status, reply.body.UnwrapOr("")))
    ensures call.result != Err(AuthenticationError)
  {
    var sent := Some(EmbedRequest(p, text));
    match reply
    case TransportError(reason) => EmbedCall(sent, Err(HttpError(reason)))
    case Response(status, body) =>
      if !IsSuccess(status) then EmbedCall(sent, Err(ProviderError(status, body.UnwrapOr(""))))
      else match parsed
        case Err(e) => EmbedCall(sent, Err(InvalidResponse("Failed to parse Ollama response: " + e)))
        case Ok(embeddings) =>
          if |embeddings| == 0 then EmbedCall(sent, Err(InvalidResponse("Empty embeddings array")))
          else EmbedCall(sent, Ok(embeddings[0]))
  }
}

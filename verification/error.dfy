/** The gateway's error type for embedding requests and its mapping to HTTP responses (src/error.rs). */
module Errors {
  import opened Common
  import opened Http

  datatype EmbeddingError =
    | HttpError(detail: string)
    | ProviderNotFound(name: string)
    | InvalidResponse(detail: string)
    | AuthenticationError
    | ProviderError(status: u16, message: string)
    | ConfigError(detail: string)
    | BadRequest(detail: string)

  /** The display template of each variant (`thiserror`'s `#[error(...)]`): a fixed category text, then the error's own detail. */
  function Message(e: EmbeddingError): (m: string)
    ensures |m| > 0
    ensures (e.HttpError? || e.InvalidResponse? || e.ConfigError? || e.BadRequest?) ==>
      |e.detail| < |m| && m[|m| - |e.detail|..] == e.detail
    ensures e.ProviderError? ==> |e.message| < |m| && m[|m| - |e.message|..] == e.message
  {
    match e
    case HttpError(d) => "HTTP request failed: " + d
    case ProviderNotFound(n) => "Provider '" + n + "' is not configured"
    case InvalidResponse(d) => "Invalid response from provider: " + d
    case AuthenticationError => "Authentication failed: missing or invalid API key"
    case ProviderError(s, msg) => "Provider returned error: " + NatToDecimal(s) + " - " + msg
    case ConfigError(d) => "Configuration error: " + d
    case BadRequest(d) => "Bad request: " + d
  }

  /** The kinds of error, without their payloads. */
  datatype ErrorKind = Http | NotFound | Invalid | Auth | Provider | Config | Bad

  function KindOf(e: EmbeddingError): ErrorKind {
    match e
    case HttpError(_) => Http
    case ProviderNotFound(_) => NotFound
    case InvalidResponse(_) => Invalid
    case AuthenticationError => Auth
    case ProviderError(_, _) => Provider
    case ConfigError(_) => Config
    case BadRequest(_) => Bad
  }

  /** Reads the kind of error back from the start of a display message. */
  function KindOfMessage(m: string): Option<ErrorKind> {
    if "HTTP request failed: " <= m then Some(Http)
    else if "Provider '" <= m then Some(NotFound)
    else if "Invalid response from provider: " <= m then Some(Invalid)
    else if "Authentication failed: " <= m then Some(Auth)
    else if "Provider returned error: " <= m then Some(Provider)
    else if "Configuration error: " <= m then Some(Config)
    else if "Bad request: " <= m then Some(Bad)
    else None
  }

  /** A string that starts with `p` does not start with `q` when the two differ at `i`. */
  lemma PrefixesDiffer(p: string, q: string, m: string, i: nat)
    requires p <= m && i < |p| && i < |q| && p[i] != q[i]
    ensures !(q <= m)
  {
    assert m[i] == p[i];
  }

  /** Every message names its category: the kind of error can be read back from the text alone. */
  lemma MessageNamesKind(e: EmbeddingError)
    ensures KindOfMessage(Message(e)) == Some(KindOf(e))
  {
    var m := Message(e);
    var http, notFound, invalid := "HTTP request failed: ", "Provider '", "Invalid response from provider: ";
    var auth, provider, config := "Authentication failed: ", "Provider returned error: ", "Configuration error: ";
    match e
    case HttpError(d) =>
      assert http <= m;
    case ProviderNotFound(n) =>
      assert notFound <= m;
      PrefixesDiffer(notFound, http, m, 0);
    case InvalidResponse(d) =>
      assert invalid <= m;
      PrefixesDiffer(invalid, http, m, 0);
      PrefixesDiffer(invalid, notFound, m, 0);
    case AuthenticationError =>
      assert auth <= m;
      PrefixesDiffer(auth, http, m, 0);
      PrefixesDiffer(auth, notFound, m, 0);
      PrefixesDiffer(auth, invalid, m, 0);
    case ProviderError(s, msg) =>
      assert provider <= m;
      PrefixesDiffer(provider, http, m, 0);
      PrefixesDiffer(provider, notFound, m, 9);
      PrefixesDiffer(provider, invalid, m, 0);
      PrefixesDiffer(provider, auth, m, 0);
    case ConfigError(d) =>
      assert config <= m;
      PrefixesDiffer(config, http, m, 0);
      PrefixesDiffer(config, notFound, m, 0);
      PrefixesDiffer(config, invalid, m, 0);
      PrefixesDiffer(config, auth, m, 0);
      PrefixesDiffer(config, provider, m, 0);
    case BadRequest(d) =>
      assert "Bad request: " <= m;
      PrefixesDiffer("Bad request: ", http, m, 0);
      PrefixesDiffer("Bad request: ", notFound, m, 0);
      PrefixesDiffer("Bad request: ", invalid, m, 0);
      PrefixesDiffer("Bad request: ", auth, m, 0);
      PrefixesDiffer("Bad request: ", provider, m, 0);
      PrefixesDiffer("Bad request: ", config, m, 0);
  }

  /** The HTTP response an error becomes: a status and the body `{"error": message}`. */
  datatype ErrorResponse = ErrorResponse(status: StatusCode, body: Json)

  /** `IntoResponse::into_response`. */
  function IntoResponse(e: EmbeddingError): (r: ErrorResponse)
    ensures IsValidStatus(r.status)
    ensures r.body == JObject(map["error" := JString(Message(e))])
    ensures (e.BadRequest? || e.ProviderNotFound?) <==> r.status == 400 && !e.ProviderError?
    ensures e.AuthenticationError? ==> r.status == 401
    ensures e.ProviderError? ==> r.status == if IsValidStatus(e.status) then e.status else 500
    ensures (e.ConfigError? || e.HttpError? || e.InvalidResponse?) ==> r.status == 500
  {
    var status :=
      match e
      case BadRequest(_) => 400
      case ProviderNotFound(_) => 400
      case AuthenticationError => 401
      case ProviderError(s, _) => if IsValidStatus(s) then s else 500
      case ConfigError(_) => 500
      case _ => 500;
    ErrorResponse(status, JObject(map["error" := JString(Message(e))]))
  }

  /** Only a provider's own status can produce a status other than 400, 401 and 500. */
  lemma StatusComesFromFixedSetOrProvider(e: EmbeddingError)
    requires !e.ProviderError?
    ensures IntoResponse(e).status in {400, 401, 500}
  {
  }
}

/**
 * The Qdrant REST client (src/vector_store.rs): collection provisioning with
 * bounded exponential-backoff retry, point upsert with the reserved `"text"`
 * payload key, nearest-neighbour search, and the conversion of Qdrant hits
 * into search results.
 *
 * Every network exchange is reduced to the request the client sends and the
 * `Reply` it gets back; a reply body that parses is passed in already parsed.
 * The waits between attempts are values, not sleeps.
 */
module VectorStore {
  import opened Common
  import opened Http
  import Config

  /** The errors the Qdrant client produces. */
  datatype VectorStoreError =
    | HttpError(reason: string)
    | Api(status: StatusCode, message: string)
    | BadRequest(message: string)
    | InvalidResponse(message: string)

  /** The client's configuration; nothing in it changes after construction. */
  datatype QdrantStore = QdrantStore(
    baseUrl: string,
    collection: string,
    apiKey: Option<string>,
    dimensions: u32,
    distance: string)

  /** `QdrantStore::new`: trailing slashes trimmed off the URL, everything else copied. */
  function New(cfg: Config.QdrantConfig): (store: QdrantStore)
    ensures store.baseUrl <= cfg.url && (store.baseUrl == [] || store.baseUrl[|store.baseUrl| - 1] != '/')
    ensures forall i :: |store.baseUrl| <= i < |cfg.url| ==> cfg.url[i] == '/'
    ensures store.collection == cfg.collection && store.apiKey == cfg.apiKey
    ensures store.dimensions == cfg.dimensions && store.distance == cfg.distance
  {
    QdrantStore(TrimEndSlashes(cfg.url), cfg.collection, cfg.apiKey, cfg.dimensions, cfg.distance)
  }

  /** `request` followed by `.json(body)`: the URL is the base URL plus the path; `api-key` only for a non-empty key. */
  function StoreRequest(store: QdrantStore, verb: Method, path: string, body: Option<Json>): (r: Request)
    ensures r.verb == verb && r.url == store.baseUrl + path && r.body == body
    ensures r.headers.Keys <= {"api-key"}
    ensures "api-key" in r.headers <==> store.apiKey.Some? && store.apiKey.value != ""
    ensures "api-key" in r.headers ==> r.headers["api-key"] == store.apiKey.value
  {
    var headers := if store.apiKey.Some? && store.apiKey.value != "" then map["api-key" := store.apiKey.value] else map[];
    Request(verb, store.baseUrl + path, headers, body)
  }

  const UnreadableBody := "<failed to read response body>"

  /** `api_error`: the status and the body text, or a placeholder when the body cannot be read. */
  function ApiError(status: StatusCode, body: Option<string>): (e: VectorStoreError)
    ensures e.Api? && e.status == status
    ensures body.Some? ==> e.message == body.value
    ensures body.None? ==> e.message == "<failed to read response body>"
  {
    Api(status, body.UnwrapOr(UnreadableBody))
  }

  // ---------------------------------------------------------------------------
  // Collection provisioning
  // ---------------------------------------------------------------------------

  function CollectionPath(store: QdrantStore): string {
    "/collections/" + store.collection
  }

  /** The body of the create request: the vector size and distance metric. */
  function CreateBody(store: QdrantStore): Json {
    JObject(map["vectors" := JObject(map["size" := JNumber(store.dimensions as real), "distance" := JString(store.distance)])])
  }

  /** What the server answers one attempt with: the existence check, and the create request if one is sent. */
  datatype AttemptReplies = AttemptReplies(existence: Reply, creation: Reply)

  /** The requests one attempt sent and how it ended. */
  datatype Attempt = Attempt(sent: seq<Request>, result: Result<(), VectorStoreError>)

  /**
   * `try_ensure_collection`: `GET` the collection; 200 means it exists, 404
   * means `PUT` it with the configured size and distance, which succeeds
   * exactly on a 2xx answer; any other status is an API error.
   */
  function TryEnsureCollection(store: QdrantStore, replies: AttemptReplies): (a: Attempt)
    ensures 1 <= |a.sent| <= 2
    ensures a.sent[0] == StoreRequest(store, Get, CollectionPath(store), None)
    ensures |a.sent| == 2 <==> replies.existence.Response? && replies.existence.status == 404
    ensures |a.sent| == 2 ==> a.sent[1] == StoreRequest(store, Put, CollectionPath(store), Some(CreateBody(store)))
    ensures replies.existence.TransportError? ==> a.result == Err(HttpError(replies.existence.reason))
    ensures replies.existence.Response? && replies.existence.status == 200 ==> a.result == Ok(())
    ensures replies.existence.Response? && replies.existence.status !in {200, 404} ==>
      a.result == Err(ApiError(replies.existence.status, replies.existence.body))
    ensures |a.sent| == 2 ==>
      && (a.result.Ok? <==> replies.creation.Response? && IsSuccess(replies.creation.status))
      && (replies.creation.TransportError? ==> a.result == Err(HttpError(replies.creation.reason)))
      && (replies.creation.Response? && !IsSuccess(replies.creation.status) ==>
            a.result == Err(ApiError(replies.creation.status, replies.creation.body)))
  {
    var check := StoreRequest(store, Get, CollectionPath(store), None);
    match replies.existence
    case TransportError(reason) => Attempt([check], Err(HttpError(reason)))
    case Response(status, body) =>
      if status == 200 then Attempt([check], Ok(()))
      else if status == 404 then
        var create := StoreRequest(store, Put, CollectionPath(store), Some(CreateBody(store)));
        match replies.creation
        case TransportError(reason) => Attempt([check, create], Err(HttpError(reason)))
        case Response(createStatus, createBody) =>
          if IsSuccess(createStatus) then Attempt([check, create], Ok(()))
          else Attempt([check, create], Err(ApiError(createStatus, createBody)))
      else Attempt([check], Err(ApiError(status, body)))
  }

  /** The failures worth retrying: transport errors and HTTP 429 and 503. */
  predicate IsTransient(e: VectorStoreError) {
    e.HttpError? || (e.Api? && (e.status == 429 || e.status == 503))
  }

  const MaxAttempts: nat := 5

  function Pow2(n: nat): (p: nat)
    ensures p >= 1
  {
    if n == 0 then 1 else 2 * Pow2(n - 1)
  }

  /** The waits after the first `n` failed attempts: 1, 2, 4, ... seconds. */
  function Backoff(n: nat): (w: seq<nat>)
    ensures |w| == n
    ensures forall k :: 0 <= k < n ==> w[k] == Pow2(k)
  {
    seq(n, (k: int) requires 0 <= k < n => Pow2(k))
  }

  function Total(s: seq<nat>): nat {
    if s == [] then 0 else Total(s[..|s| - 1]) + s[|s| - 1]
  }

  /** Every request the given attempts sent, in order. */
  function SentBy(store: QdrantStore, script: seq<AttemptReplies>): (sent: seq<Request>)
    ensures |script| <= |sent| <= 2 * |script|
  {
    if script == [] then []
    else SentBy(store, script[..|script| - 1]) + TryEnsureCollection(store, script[|script| - 1]).sent
  }

  /**
   * `ensure_collection`: up to `MaxAttempts` attempts; an attempt that
   * succeeds ends the loop with `Ok`, a transient failure before the last
   * attempt is followed by a wait of 2^(k-1) seconds after attempt k, and any
   * other failure is returned as it is. `script[k]` is what the server
   * answers attempt k+1 with; the attempts not reached are never looked at.
   */
  method EnsureCollection(store: QdrantStore, script: seq<AttemptReplies>)
    returns (result: Result<(), VectorStoreError>, attempts: nat, waits: seq<nat>, sent: seq<Request>)
    requires |script| == MaxAttempts
    ensures 1 <= attempts <= MaxAttempts
    ensures result == TryEnsureCollection(store, script[attempts - 1]).result
    ensures forall k :: 0 <= k < attempts - 1 ==>
      TryEnsureCollection(store, script[k]).result.Err? && IsTransient(TryEnsureCollection(store, script[k]).result.error)
    ensures result.Err? ==> !IsTransient(result.error) || attempts == MaxAttempts
    ensures waits == Backoff(attempts - 1)
    ensures sent == SentBy(store, script[..attempts])
  {
    attempts := 0;
    waits := [];
    sent := [];
    while true
      invariant 0 <= attempts < MaxAttempts
      invariant forall k :: 0 <= k < attempts ==>
        TryEnsureCollection(store, script[k]).result.Err? && IsTransient(TryEnsureCollection(store, script[k]).result.error)
      invariant waits == Backoff(attempts)
      invariant sent == SentBy(store, script[..attempts])
      decreases MaxAttempts - attempts
    {
      attempts := attempts + 1;
      var outcome := TryEnsureCollection(store, script[attempts - 1]);
      assert script[..attempts][..attempts - 1] == script[..attempts - 1];
      sent := sent + outcome.sent;
      if outcome.result.Ok? {
        result := outcome.result;
        return;
      }
      if IsTransient(outcome.result.error) && attempts < MaxAttempts {
        waits := waits + [Pow2(attempts - 1)];
      } else {
        result := outcome.result;
        return;
      }
    }
  }

  /** The schedule the loop can produce: 1, 2, 4 and 8 seconds. */
  lemma BackoffSchedule()
    ensures Backoff(MaxAttempts - 1) == [1, 2, 4, 8]
  {
    assert Pow2(1) == 2 && Pow2(2) == 4 && Pow2(3) == 8;
  }

  /** The waits after n failures add up to 2^n - 1 seconds, so never more than 15 in all. */
  lemma {:induction false} BackoffTotal(n: nat)
    ensures Total(Backoff(n)) == Pow2(n) - 1
  {
    if n > 0 {
      BackoffTotal(n - 1);
      assert Backoff(n)[..n - 1] == Backoff(n - 1);
    }
  }

  /** A collection that already exists is found by one `GET` and never re-created. */
  method ProvisionExisting(store: QdrantStore, script: seq<AttemptReplies>) returns (result: Result<(), VectorStoreError>)
    requires |script| == MaxAttempts
    requires script[0].existence.Response? && script[0].existence.status == 200
    ensures result == Ok(())
  {
    var attempts, waits, sent;
    result, attempts, waits, sent := EnsureCollection(store, script);
    assert attempts == 1;
    assert sent == [StoreRequest(store, Get, CollectionPath(store), None)];
    assert waits == [];
  }

  /** A failed create (here a 500) is not retried: the first attempt's error is the result. */
  method ProvisionCreateFails(store: QdrantStore, script: seq<AttemptReplies>, body: Option<string>)
    returns (result: Result<(), VectorStoreError>, attempts: nat)
    requires |script| == MaxAttempts
    requires script[0] == AttemptReplies(Response(404, None), Response(500, body))
    ensures attempts == 1
    ensures result == Err(ApiError(500, body))
  {
    var waits, sent;
    result, attempts, waits, sent := EnsureCollection(store, script);
  }

  /** A server that is never reachable is tried five times, with waits of 1, 2, 4 and 8 seconds. */
  method ProvisionUnreachable(store: QdrantStore, script: seq<AttemptReplies>)
    returns (result: Result<(), VectorStoreError>, waits: seq<nat>)
    requires |script| == MaxAttempts
    requires forall k :: 0 <= k < MaxAttempts ==> script[k].existence.TransportError?
    ensures result == Err(HttpError(script[4].existence.reason))
    ensures waits == [1, 2, 4, 8]
  {
    var attempts, sent;
    result, attempts, waits, sent := EnsureCollection(store, script);
    BackoffSchedule();
  }

  // ---------------------------------------------------------------------------
  // Upsert
  // ---------------------------------------------------------------------------

  const ReservedTextMessage := "'text' is a reserved metadata key; it is used internally to store the original text of the embedding. Please use a different key for your custom metadata."

  /** The request that stores one point. */
  function UpsertRequest(store: QdrantStore, pointId: string, vector: seq<real>, payload: map<string, Json>): (r: Request)
    ensures r.verb == Put && r.url == store.baseUrl + "/collections/" + store.collection + "/points"
  {
    var point := JObject(map["id" := JString(pointId), "vector" := VectorJson(vector), "payload" := JObject(payload)]);
    StoreRequest(store, Put, "/collections/" + store.collection + "/points", Some(JObject(map["points" := JArray([point])])))
  }

  /** The payload `upsert` stores: the caller's metadata with `"text"` added, every other value kept. */
  function UpsertPayload(metadata: map<string, Json>, text: string): (payload: map<string, Json>)
    ensures payload.Keys == metadata.Keys + {"text"}
    ensures payload["text"] == JString(text)
    ensures forall k :: k in metadata && k != "text" ==> payload[k] == metadata[k]
  {
    metadata["text" := JString(text)]
  }

  /**
   * `upsert`: the id is the supplied one or a fresh one; metadata that already
   * holds `"text"` is rejected before anything is sent; otherwise the payload
   * is the metadata with `"text"` added, and any non-2xx answer is an API error.
   */
  method Upsert(store: QdrantStore, id: Option<string>, vector: seq<real>, text: string, metadata: map<string, Json>,
                freshId: string, reply: Reply)
    returns (sent: Option<Request>, result: Result<string, VectorStoreError>)
    ensures "text" in metadata <==> sent.None?
    ensures "text" in metadata ==> result == Err(BadRequest(ReservedTextMessage))
    ensures sent.Some? ==> sent.value == UpsertRequest(store, id.UnwrapOr(freshId), vector, UpsertPayload(metadata, text))
    ensures result.Ok? ==> result.value == (if id.Some? then id.value else freshId)
    ensures sent.Some? ==>
      && (result.Ok? <==> reply.Response? && IsSuccess(reply.status))
      && (reply.TransportError? ==> result == Err(HttpError(reply.reason)))
      && (reply.Response? && !IsSuccess(reply.status) ==> result == Err(ApiError(reply.status, reply.body)))
  {
    var pointId := id.UnwrapOr(freshId);
    if "text" in metadata {
      return None, Err(BadRequest(ReservedTextMessage));
    }
    sent := Some(UpsertRequest(store, pointId, vector, UpsertPayload(metadata, text)));
    match reply {
      case TransportError(reason) =>
        result := Err(HttpError(reason));
      case Response(status, body) =>
        if !IsSuccess(status) {
          result := Err(ApiError(status, body));
        } else {
          result := Ok(pointId);
        }
    }
  }

  // ---------------------------------------------------------------------------
  // Search and hit conversion
  // ---------------------------------------------------------------------------

  /** A Qdrant point id: a UUID string or an unsigned integer. */
  datatype PointId = UuidId(uuid: string) | NumericId(number: nat)

  /** One element of the `result` array of a search response. */
  datatype QdrantHit = QdrantHit(id: PointId, score: real, payload: map<string, Json>)

  datatype SearchResult = SearchResult(id: string, score: real, text: string, metadata: map<string, Json>)

  /**
   * `From<QdrantHit> for SearchResult`: a string id is kept and a numeric one
   * written in decimal; `"text"` is taken out of the payload (as a string, or
   * "" when it is missing or not a string) and the rest becomes the metadata.
   */
  function FromHit(hit: QdrantHit): (r: SearchResult)
    ensures hit.id.UuidId? ==> r.id == hit.id.uuid
    ensures hit.id.NumericId? ==> r.id == NatToDecimal(hit.id.number)
    ensures r.score == hit.score
    ensures "text" in hit.payload && hit.payload["text"].JString? ==> r.text == hit.payload["text"].s
    ensures !("text" in hit.payload && hit.payload["text"].JString?) ==> r.text == ""
    ensures "text" !in r.metadata
    ensures forall k :: k in r.metadata <==> k in hit.payload && k != "text"
    ensures forall k :: k in r.metadata ==> r.metadata[k] == hit.payload[k]
  {
    var id := match hit.id
      case UuidId(s) => s
      case NumericId(n) => NatToDecimal(n);
    var text := if "text" in hit.payload && hit.payload["text"].JString? then hit.payload["text"].s else "";
    SearchResult(id, hit.score, text, hit.payload - {"text"})
  }

  /** A point stored by `upsert` comes back from a search with its text and metadata intact. */
  lemma UpsertThenHit(pointId: string, vector: seq<real>, text: string, metadata: map<string, Json>, score: real)
    requires "text" !in metadata
    ensures FromHit(QdrantHit(UuidId(pointId), score, UpsertPayload(metadata, text)))
      == SearchResult(pointId, score, text, metadata)
  {
    var payload := UpsertPayload(metadata, text);
    assert payload - {"text"} == metadata;
  }

  /** A numeric id is written so that reading it back gives the same number, and distinct numbers stay distinct. */
  lemma NumericIdDecimal(hit: QdrantHit, other: QdrantHit)
    requires hit.id.NumericId? && other.id.NumericId?
    ensures DecimalValue(FromHit(hit).id) == hit.id.number
    ensures FromHit(hit).id == FromHit(other).id ==> hit.id == other.id
  {
    DecimalRoundTrip(hit.id.number);
    if FromHit(hit).id == FromHit(other).id {
      DecimalInjective(hit.id.number, other.id.number);
    }
  }

  /** The search request: the vector, the limit, the full payload, and a score threshold only when one is given. */
  function SearchRequest(store: QdrantStore, vector: seq<real>, limit: u32, threshold: Option<real>): (r: Request)
    ensures r.verb == Post && r.url == store.baseUrl + "/collections/" + store.collection + "/points/search"
    ensures r.body.Some? && r.body.value.JObject?
    ensures var fields := r.body.value.fields;
      && fields.Keys == {"vector", "limit", "with_payload"} + (if threshold.Some? then {"score_threshold"} else {})
      && fields["vector"] == VectorJson(vector)
      && fields["limit"] == JNumber(limit as real)
      && fields["with_payload"] == JBool(true)
      && (threshold.Some? ==> fields["score_threshold"] == JNumber(threshold.value))
  {
    var body := map["vector" := VectorJson(vector), "limit" := JNumber(limit as real), "with_payload" := JBool(true)];
    var body' := if threshold.Some? then body["score_threshold" := JNumber(threshold.value)] else body;
    StoreRequest(store, Post, "/collections/" + store.collection + "/points/search", Some(JObject(body')))
  }

  /**
   * `search`'s handling of the answer: a non-2xx status is an API error, an
   * unparseable body an invalid response, and otherwise every hit is
   * converted, keeping the server's count and order.
   */
  function SearchOutcome(reply: Reply, parsed: Result<seq<QdrantHit>, string>): (r: Result<seq<SearchResult>, VectorStoreError>)
    ensures reply.TransportError? ==> r == Err(HttpError(reply.reason))
    ensures reply.Response? && !IsSuccess(reply.status) ==> r == Err(ApiError(reply.status, reply.body))
    ensures reply.Response? && IsSuccess(reply.status) && parsed.Err? ==>
      r == Err(InvalidResponse("Failed to parse search response: " + parsed.error))
    ensures r.Ok? <==> reply.Response? && IsSuccess(reply.status) && parsed.Ok?
    ensures r.Ok? ==> |r.value| == |parsed.value| && forall i :: 0 <= i < |r.value| ==> r.value[i] == FromHit(parsed.value[i])
  {
    match reply
    case TransportError(reason) => Err(HttpError(reason))
    case Response(status, body) =>
      if !IsSuccess(status) then Err(ApiError(status, body))
      else match parsed
        case Err(e) => Err(InvalidResponse("Failed to parse search response: " + e))
        case Ok(hits) => Ok(seq(|hits|, i requires 0 <= i < |hits| => FromHit(hits[i])))
  }

  /** No search result ever carries `"text"` in its metadata, whatever the server sent. */
  lemma SearchMetadataNeverHoldsText(reply: Reply, parsed: Result<seq<QdrantHit>, string>)
    ensures var r := SearchOutcome(reply, parsed);
      r.Ok? ==> forall i :: 0 <= i < |r.value| ==> "text" !in r.value[i].metadata
  {
  }
}

# Agent-memory gateway core, modelled in Dafny

This project models the decision-making core of an agent-memory HTTP gateway.
The gateway turns text into embeddings through one of several providers
(Ollama, OpenAI, Anthropic) and keeps the embeddings in one of two stores: an
in-process vector store, or a Qdrant collection reached over REST.

The model covers the following:

- **In-process store** (`memory.dfy`). A `MemoryStore` class holds a map from id
  to entry. `Store` and `Delete` update the map in place. `Search` filters by
  session tag, scores by cosine similarity, sorts by descending score and keeps
  the top `limit`.
- **Qdrant client** (`vector_store.dfy`):
  - the status dispatch of one provisioning attempt;
  - the bounded retry loop with exponential backoff;
  - the upsert payload and its reserved `"text"` key;
  - the search request and how its answer is handled;
  - the conversion of a Qdrant hit into a search result.
- **Embedding providers** (`openai.dfy`, `claude.dfy`, `ollama.dfy`). Each
  `embed` is a classification of one HTTP exchange. `embedding_provider.dfy`
  states the contract all three keep.
- **Provider registry** (`registry.dfy`): provider construction by type, the
  registry built from the configuration, and lookup with fallback to the
  default provider.
- **Errors and configuration** (`error.dfy`, `config.dfy`): the status and body
  each error is answered with, the `[qdrant]` defaults, and the environment
  overrides.

`common.dfy` and `http.dfy` hold shared values: `Option`, `Result`, fixed-width
integers, trailing-slash trimming, decimal rendering, JSON values, requests and
replies.

The network is reduced to values. A call sends a `Request` and gets a `Reply`,
which is either a transport failure or a status with an optional body text
(`None` when the body could not be read). A reply body that deserialises is
passed in already parsed, as `Ok(envelope)` or `Err(serde message)`. Floats are
real numbers. Waits between retries are values, not sleeps.

## Model

| member | source | states |
|---|---|---|
| Memory.MemoryStore.constructor | src/memory.rs:39-43 | A new store holds no entries and satisfies the store invariant (every entry is stored under its own id). |
| Memory.MemoryStore.Store | src/memory.rs:46-63 | The returned id was not in the map before. The map gains exactly that key, bound to an entry with the given text, metadata, session and embedding; every other entry is unchanged; every entry stays stored under its own id. |
| Memory.MemoryStore.Delete | src/memory.rs:96-99 | Returns true iff the id was a key beforehand. Afterwards the id is absent and every other entry is unchanged. |
| Memory.DeleteTwice | src/memory.rs:197-211 | Deleting the same id twice: the second call returns false and the entry is gone. |
| Memory.MemoryStore.ScoreCandidates | src/memory.rs:75-89 | The scan yields exactly one result per entry that passes the session filter (ids distinct, same id set as the candidates). Each result is its entry's fields plus the cosine score against the query. |
| Memory.MemoryStore.Search | src/memory.rs:69-94 | Length is min(limit, number of candidates). Each result is a candidate's entry copied with its cosine score, and carries the requested session when one is given. Ids are distinct. Scores are non-increasing. No candidate left out scores higher than any kept result (top-k). The map is only read. |
| Memory.CosineSimilarity | src/memory.rs:102-113 | Returns 0 when either magnitude is 0, and 0 when the dot product is 0 (orthogonal vectors). |
| Memory.CosineWithZeroVector | src/memory.rs:228-234 | The similarity with an all-zero vector is 0, for any square root with sqrt(0) = 0. |
| Memory.CosineWithItself | src/memory.rs:213-218 | With an exact square root, a vector with a non-zero component has similarity 1 with itself (in real arithmetic). |
| Memory.SumOfSquaresSign | src/memory.rs:107-108 | A squared magnitude is never negative. It is 0 for the zero vector and positive when any component is non-zero. |
| Memory.DotSelf | src/memory.rs:106-107 | A vector's dot product with itself is its squared magnitude. |
| Memory.SortByScoreDescFacts | src/memory.rs:91 | The descending sort yields a non-increasing score order and a permutation (same multiset) of its input. |
| Memory.TopOfSorted | src/memory.rs:91-92 | Sorting then truncating to n keeps n elements of the input, in sorted order, with ids still distinct. Nothing dropped scores above anything kept. |
| Memory.PermutationKeepsIds | src/memory.rs:91 | Reordering keeps the set of ids, and keeps them distinct. |
| Memory.DistinctIdsCount | src/memory.rs:76-92 | A sequence with distinct ids has as many ids as elements, so truncation yields min(limit, candidates) results. |
| VectorStore.New | src/vector_store.rs:60-73 | The base URL is the configured URL with trailing slashes removed. Collection, key, dimensions and distance are copied. |
| VectorStore.StoreRequest | src/vector_store.rs:79-88 | URL = base URL + path. An `api-key` header is sent iff a key is configured and non-empty, and no other header is set. |
| VectorStore.ApiError | src/vector_store.rs:302-309 | A non-2xx answer becomes `Api{status, body}`, or the placeholder `<failed to read response body>` when the body is unreadable. |
| VectorStore.TryEnsureCollection | src/vector_store.rs:134-177 | Always a `GET` of the collection first. 200: success with no create request. 404: exactly one `PUT` with the configured size and distance, succeeding iff its answer is 2xx. Transport failures are `Http`. Any other status is `Api{status, body}`. |
| VectorStore.EnsureCollection | src/vector_store.rs:94-132 | Makes 1 to 5 attempts. Returns the last attempt's outcome. Every earlier attempt failed transiently (`Http`, or `Api` with 429 or 503). An error is returned only when it is not transient or the fifth attempt made it. The waits are 2^(k-1) seconds after attempt k. The requests sent are those of the attempts made, in order. |
| VectorStore.BackoffSchedule | src/vector_store.rs:96-98 | The longest wait schedule is exactly 1, 2, 4, 8 seconds. |
| VectorStore.BackoffTotal | src/vector_store.rs:117-118 | The waits after n failures add up to 2^n - 1 seconds (15 at most). |
| VectorStore.ProvisionExisting | src/vector_store.rs:416-437 | A collection answered with 200 on the first `GET` gives success. |
| VectorStore.ProvisionCreateFails | src/vector_store.rs:440-457 | `GET` 404 then create 500 ends after one attempt with `Api{500, body}`; it is not retried. |
| VectorStore.ProvisionUnreachable | src/vector_store.rs:99-131 | A server that never answers is tried five times, with waits 1, 2, 4, 8. The fifth transport error is returned. |
| VectorStore.Upsert | src/vector_store.rs:192-236 | Metadata holding `"text"` gives `BadRequest` (the source's message) and sends nothing. Otherwise exactly one `PUT` of the point, with the supplied or fresh id and the payload `UpsertPayload` (metadata plus `"text"` ↦ text). On success returns the supplied id, or the fresh one when none was supplied. Non-2xx gives `Api`; a transport failure gives `Http`. |
| VectorStore.FromHit | src/vector_store.rs:328-355 | A UUID id is kept and a numeric id becomes its decimal string. `text` is the payload's string `"text"`, else "". Metadata is exactly the payload without `"text"`, with values unchanged. The score is unchanged. |
| VectorStore.UpsertPayload | src/vector_store.rs:201-211 | The stored payload has exactly the metadata's keys plus `"text"`. `"text"` holds the text, and every other key keeps its metadata value. |
| VectorStore.UpsertThenHit | src/vector_store.rs:199-221 | A payload built by upsert, converted back from a hit, returns the original text and exactly the original metadata. |
| VectorStore.NumericIdDecimal | src/vector_store.rs:330-332 | The decimal string of a numeric id reads back as the same number, and distinct numbers give distinct strings. |
| VectorStore.SearchRequest | src/vector_store.rs:258-270 | `POST` to the search path with the vector, the limit and `with_payload: true`. `score_threshold` is present iff a threshold is given. |
| VectorStore.SearchOutcome | src/vector_store.rs:276-290 | Transport failure gives `Http`. Non-2xx gives `Api`. An unparseable 2xx body gives `InvalidResponse` with the parse message. Otherwise every hit is converted, keeping count and order. |
| VectorStore.SearchMetadataNeverHoldsText | src/vector_store.rs:338-352 | No search result's metadata contains `"text"`. |
| EmbeddingProvider.SuccessNeedsVector | src/embedding/mod.rs:26-27 | Under the common `embed` contract, a call succeeds iff a request was sent and got a 2xx reply holding at least one vector. The result is then the first vector. |
| EmbeddingProvider.DataVectors | src/embedding/openai.rs:85-94 | A `data` envelope yields its `embedding` vectors, with count and order kept. A parse failure is passed through with its message. |
| OpenAI.New | src/embedding/openai.rs:27-34 | The base URL is the configured one with exactly its trailing slashes removed, and nothing else removed. The model is copied. The key is the configured key, or empty when none is configured. |
| OpenAI.EmbedRequest | src/embedding/openai.rs:60-69 | `POST {base}/v1/embeddings` with model and input. A bearer `Authorization` header is sent iff the key is non-empty. |
| OpenAI.Embed | src/embedding/openai.rs:59-95 | Keeps the common contract. 401/403 give `AuthenticationError`; other non-2xx give `ProviderError{status, body}`. A 2xx gives the first `data` vector; an empty or unparseable envelope gives `InvalidResponse`. |
| OpenAI.RequestFromConfig | src/embedding/openai.rs:30-32 | The endpoint and bearer rule, stated from the provider configuration. |
| Claude.New | src/embedding/claude.rs:30-37 | The base URL is the configured one with exactly its trailing slashes removed, and nothing else removed. The model is copied. The key is the configured key, or empty when none is configured. |
| Claude.EmbedRequest | src/embedding/claude.rs:63-76 | `POST {base}/v1/embeddings` with `x-api-key` and `anthropic-version: 2023-06-01`. The input is a one-element list. |
| Claude.Embed | src/embedding/claude.rs:58-100 | An empty key gives `AuthenticationError` with no request sent. Otherwise the same classification as OpenAI. |
| Claude.MissingKeyNeverSends | src/embedding/claude.rs:30-61 | A configuration with a missing or empty key never reaches the network. |
| Ollama.New | src/embedding/ollama.rs:23-29 | The base URL is the configured one with exactly its trailing slashes removed, and nothing else removed. The model is copied. |
| Ollama.EmbedRequest | src/embedding/ollama.rs:46-52 | `POST {base}/api/embed` with no header of its own. |
| Ollama.Embed | src/embedding/ollama.rs:45-72 | Keeps the common contract. Every non-2xx status, 401 and 403 included, gives `ProviderError` with that status; the result is never `AuthenticationError`. A 2xx gives the first of `embeddings`. |
| Registry.BuildProvider | src/embedding/mod.rs:34-46 | Succeeds iff the type is `ollama`, `openai` or `claude`, with a provider of that type. Otherwise `ConfigError("Unknown provider type: '<type>'")`. |
| Registry.FromConfig | src/embedding/mod.rs:56-66 | Fails iff some configured provider has an unknown type, and the error names one such type. On success the keys are the configured names, each built from its configuration, and the default is kept unchecked. |
| Registry.ProviderRegistry.Get | src/embedding/mod.rs:69-74 | Resolves the given name, else the default. Succeeds iff the resolved key is registered, otherwise `ProviderNotFound(key)`. |
| Registry.ProviderRegistry.DefaultProvider | src/embedding/mod.rs:77-79 | Returns the stored default name. Looking it up is the same as a lookup without a name. |
| Registry.ProviderRegistry.ProviderNames | src/embedding/mod.rs:82-84 | Every registered name exactly once, and nothing else. |
| Errors.Message | src/error.rs:9-31 | Every display message is non-empty. Each message with a detail (HTTP, invalid response, configuration, bad request, provider body) ends with that detail, after a non-empty category text. |
| Errors.MessageNamesKind | src/error.rs:9-31 | The error kind can be read back from the display message alone. |
| Errors.IntoResponse | src/error.rs:33-54 | The status is always valid and the body is `{"error": message}`. `BadRequest` and `ProviderNotFound` give 400, `AuthenticationError` 401, and `ProviderError` its own status if valid, else 500. Everything else gives 500. |
| Errors.StatusComesFromFixedSetOrProvider | src/error.rs:35-50 | Apart from a provider's own status, only 400, 401 and 500 are produced. |
| Config.DefaultQdrant | src/config.rs:71-81 | The defaults are collection `agent_memory`, no key, 768 dimensions and `Cosine`. |
| Config.FromSection | src/config.rs:54-69 | A missing `dimensions` becomes 768 and a missing `distance` becomes `Cosine`; present values are kept. |
| Config.ApplyEnvOverrides | src/config.rs:84-107 | `QDRANT_URL` alone turns the Qdrant section on, with that URL and the defaults elsewhere. `QDRANT_COLLECTION` and `QDRANT_API_KEY` override a section that is present (an empty key is kept as set). Server and embedding settings are untouched. Without any of the three variables the configuration is exactly the parsed file. |

## Left out

- Network transport, the 30-second timeout, and JSON and TOML (de)serialisation. Replies and parsed envelopes are parameters.
- `Memory.CosineSimilarity`: f32 rounding, NaN and the square root are not modelled. Floats are reals. The square root is a function the store is given, and lemmas name the properties they need of it. `partial_cmp` on NaN scores is therefore not modelled.
- `Memory.SortByScoreDesc`: `sort_by` in place on the result vector is modelled as a sort on values (insertion sort). Only order and permutation are promised; ties among equal scores are left unspecified, as in a `HashMap` scan.
- `Memory.MemoryStore.Store`: UUID generation is a fresh id passed in, required not to be in use. `VectorStore.Upsert` takes the generated id the same way.
- The `RwLock` around the store. The store is modelled single-threaded.
- `sleep` between provisioning attempts. Only the wait values are modelled.
- `VectorStore.FromHit`: a point id that is neither a string nor a number (the logged "unexpected id" path) is not modelled. Ids are a UUID string or a natural number.
- `VectorStoreError` is imported by the Qdrant client from the error module, but the error module in this model defines only `EmbeddingError`. Its four variants are declared beside the client, as the client uses them.
- `ProviderConfig`'s `auth_scheme` and `embeddings_path`: no provider reads them.
- Logging (`info!`, `warn!`).
- The session store (SQL run by SQLite), the HTTP routes and `main`: these are not part of this model. Note that `routes::embed` answers an empty text with `InvalidResponse`, which maps to 500.
- Unlike OpenAI and Claude, Ollama has no 401/403 case. It reports them as `ProviderError` (`Ollama.Embed`).

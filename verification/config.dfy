/**
 * The application configuration (src/config.rs): the parsed file, the defaults
 * of the `[qdrant]` section, and the environment overrides applied by
 * `Config::load`. Reading the file and parsing TOML are not modelled; the
 * environment is a map from variable name to value.
 */
module Config {
  import opened Common

  datatype ServerConfig = ServerConfig(host: string, port: u16)

  datatype ProviderConfig = ProviderConfig(providerType: string, baseUrl: string, model: string, apiKey: Option<string>)

  datatype EmbeddingConfig = EmbeddingConfig(defaultProvider: string, providers: map<string, ProviderConfig>)

  datatype QdrantConfig = QdrantConfig(url: string, collection: string, apiKey: Option<string>, dimensions: u32, distance: string)

  datatype Config = Config(server: ServerConfig, embedding: EmbeddingConfig, qdrant: Option<QdrantConfig>)

  const DefaultDimensions: u32 := 768
  const DefaultDistance: string := "Cosine"

  /** `QdrantConfig::default()`. */
  function DefaultQdrant(): (q: QdrantConfig)
    ensures q.collection == "agent_memory" && q.apiKey.None?
    ensures q.dimensions == 768 && q.distance == "Cosine"
  {
    QdrantConfig("http://localhost:6333", "agent_memory", None, DefaultDimensions, DefaultDistance)
  }

  /** A `[qdrant]` table as written in the file: `dimensions` and `distance` may be absent. */
  datatype QdrantSection = QdrantSection(url: string, collection: string, apiKey: Option<string>, dimensions: Option<u32>, distance: Option<string>)

  /** Deserialising a `[qdrant]` table fills the two absent fields with their serde defaults. */
  function FromSection(t: QdrantSection): (q: QdrantConfig)
    ensures q.url == t.url && q.collection == t.collection && q.apiKey == t.apiKey
    ensures t.dimensions.None? ==> q.dimensions == 768
    ensures t.dimensions.Some? ==> q.dimensions == t.dimensions.value
    ensures t.distance.None? ==> q.distance == "Cosine"
    ensures t.distance.Some? ==> q.distance == t.distance.value
  {
    QdrantConfig(t.url, t.collection, t.apiKey, t.dimensions.UnwrapOr(DefaultDimensions), t.distance.UnwrapOr(DefaultDistance))
  }

  const QdrantUrlVar := "QDRANT_URL"
  const QdrantCollectionVar := "QDRANT_COLLECTION"
  const QdrantApiKeyVar := "QDRANT_API_KEY"

  /**
   * The override step of `Config::load`: `QDRANT_URL` enables the Qdrant section
   * (starting from the defaults when the file had none) and sets its URL; the
   * other two variables only change a section that is already there.
   */
  method ApplyEnvOverrides(parsed: Config, env: map<string, string>) returns (config: Config)
    ensures config.server == parsed.server && config.embedding == parsed.embedding
    ensures config.qdrant.Some? <==> parsed.qdrant.Some? || QdrantUrlVar in env
    ensures QdrantUrlVar in env ==> config.qdrant.value.url == env[QdrantUrlVar]
    ensures QdrantUrlVar !in env && parsed.qdrant.Some? ==> config.qdrant.value.url == parsed.qdrant.value.url
    ensures config.qdrant.Some? ==>
      var base := if parsed.qdrant.Some? then parsed.qdrant.value else DefaultQdrant();
      && config.qdrant.value.collection == (if QdrantCollectionVar in env then env[QdrantCollectionVar] else base.collection)
      && config.qdrant.value.apiKey == (if QdrantApiKeyVar in env then Some(env[QdrantApiKeyVar]) else base.apiKey)
      && config.qdrant.value.dimensions == base.dimensions
      && config.qdrant.value.distance == base.distance
    ensures QdrantUrlVar !in env && QdrantCollectionVar !in env && QdrantApiKeyVar !in env ==> config == parsed
  {
    config := parsed;
    if QdrantUrlVar in env {
      var qdrant := if config.qdrant.Some? then config.qdrant.value else DefaultQdrant();
      qdrant := qdrant.(url := env[QdrantUrlVar]);
      config := config.(qdrant := Some(qdrant));
    }
    if config.qdrant.Some? {
      var qdrant := config.qdrant.value;
      if QdrantCollectionVar in env {
        qdrant := qdrant.(collection := env[QdrantCollectionVar]);
      }
      if QdrantApiKeyVar in env {
        qdrant := qdrant.(apiKey := Some(env[QdrantApiKeyVar]));
      }
      config := config.(qdrant := Some(qdrant));
    }
  }
}

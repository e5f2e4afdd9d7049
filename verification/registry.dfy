/**
 * Provider construction and lookup (src/embedding/mod.rs): the closed set of
 * provider kinds, `build_provider`, and the `ProviderRegistry` that is built
 * once from the configuration and only read afterwards.
 */
module Registry {
  import opened Common
  import opened Errors
  import Config
  import OpenAI
  import Claude
  import Ollama

  /** The three provider implementations behind the `EmbeddingProvider` interface. */
  datatype Provider =
    | OllamaBacked(ollama: Ollama.OllamaProvider)
    | OpenAIBacked(openai: OpenAI.OpenAIProvider)
    | ClaudeBacked(claude: Claude.ClaudeProvider)

  /** The configuration `type` each kind of provider is built from. */
  function TypeName(p: Provider): string {
    match p
    case OllamaBacked(_) => "ollama"
    case OpenAIBacked(_) => "openai"
    case ClaudeBacked(_) => "claude"
  }

  const KnownTypes: set<string> := {"ollama", "openai", "claude"}

  function UnknownTypeMessage(providerType: string): string {
    "Unknown provider type: '" + providerType + "'"
  }

  /** `build_provider`: succeeds exactly for the three known types, with a provider of that type. */
  function BuildProvider(name: string, cfg: Config.ProviderConfig): (r: Result<Provider, EmbeddingError>)
    ensures r.Ok? <==> cfg.providerType in KnownTypes
    ensures r.Ok? ==> TypeName(r.value) == cfg.providerType
    ensures r.Err? ==> r.error == ConfigError(UnknownTypeMessage(cfg.providerType))
  {
    match cfg.providerType
    case "ollama" => Ok(OllamaBacked(Ollama.New(cfg)))
    case "openai" => Ok(OpenAIBacked(OpenAI.New(cfg)))
    case "claude" => Ok(ClaudeBacked(Claude.New(cfg)))
    case unknown => Err(ConfigError(UnknownTypeMessage(unknown)))
  }

  /** The registry: providers by name and the name of the default one. It is never changed after construction. */
  datatype ProviderRegistry = ProviderRegistry(providers: map<string, Provider>, default: string) {

    /** `get`: the named provider, or the default one when no name is given. */
    function Get(name: Option<string>): (r: Result<Provider, EmbeddingError>)
      ensures var key := if name.Some? then name.value else default;
        && (r.Ok? <==> key in providers)
        && (r.Ok? ==> r.value == providers[key])
        && (r.Err? ==> r.error == ProviderNotFound(key))
    {
      var key := name.UnwrapOr(default);
      if key in providers then Ok(providers[key]) else Err(ProviderNotFound(key))
    }

    /** `default_provider`. */
    function DefaultProvider(): (d: string)
      ensures d == default
      ensures Get(None) == Get(Some(d))
    {
      default
    }

    /** `provider_names`: every registered name once, in the map's (unspecified) order. */
    method ProviderNames() returns (names: seq<string>)
      ensures |names| == |providers.Keys|
      ensures forall n :: n in names <==> n in providers
      ensures forall i, j :: 0 <= i < j < |names| ==> names[i] != names[j]
    {
      names := [];
      var pending := providers.Keys;
      while pending != {}
        invariant pending <= providers.Keys
        invariant forall n :: n in names <==> n in providers.Keys - pending
        invariant forall i, j :: 0 <= i < j < |names| ==> names[i] != names[j]
        invariant |names| + |pending| == |providers.Keys|
        decreases pending
      {
        var n :| n in pending;
        assert n !in names;
        names := names + [n];
        pending := pending - {n};
      }
    }
  }

  /**
   * `ProviderRegistry::from_config`: builds every configured provider in the
   * map's order and stops at the first unknown type. The default name is kept
   * as given; it is not checked to be registered.
   */
  method FromConfig(cfg: Config.EmbeddingConfig) returns (r: Result<ProviderRegistry, EmbeddingError>)
    ensures r.Err? <==> exists n :: n in cfg.providers && cfg.providers[n].providerType !in KnownTypes
    ensures r.Err? ==>
      exists n :: n in cfg.providers && cfg.providers[n].providerType !in KnownTypes
                  && r.error == ConfigError(UnknownTypeMessage(cfg.providers[n].providerType))
    ensures r.Ok? ==> r.value.providers.Keys == cfg.providers.Keys && r.value.default == cfg.defaultProvider
    ensures r.Ok? ==> forall n :: n in cfg.providers ==> Ok(r.value.providers[n]) == BuildProvider(n, cfg.providers[n])
  {
    var providers: map<string, Provider> := map[];
    var pending := cfg.providers.Keys;
    while pending != {}
      invariant pending <= cfg.providers.Keys
      invariant providers.Keys == cfg.providers.Keys - pending
      invariant forall n :: n in providers ==> Ok(providers[n]) == BuildProvider(n, cfg.providers[n])
      decreases pending
    {
      var name :| name in pending;
      var built := BuildProvider(name, cfg.providers[name]);
      if built.Err? {
        return Err(built.error);
      }
      providers := providers[name := built.value];
      pending := pending - {name};
    }
    r := Ok(ProviderRegistry(providers, cfg.defaultProvider));
  }
}

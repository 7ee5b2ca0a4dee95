/** The API configuration: one settings record per provider, of which `provider` names the one in use. */
module ApiSettings {
  import opened Wrappers
  import opened JsString

  /** The settings of one provider; the floating-point `temperature` is not modelled. */
  datatype ProviderSettings = ProviderSettings(
    baseUrl: string,
    apiKey: string,
    model: string,
    maxTokens: Option<int>,
    stream: Option<bool>)

  /** `apiConfig`: the provider in use and the settings object of every provider, keyed by name. */
  datatype ApiConfig = ApiConfig(provider: string, providers: map<string, ProviderSettings>)

  /** The shipped default configuration: the OpenAI-compatible provider with an empty key. */
  const DefaultApiConfig: ApiConfig := ApiConfig(
    "openai",
    map["openai" := ProviderSettings("https://api.openai.com/v1", "", "gpt-3.5-turbo", Some(2048), Some(true))])

  /** The default names a provider it holds settings for, so the settings form can be submitted on it. */
  lemma DefaultApiConfigIsComplete()
    ensures DefaultApiConfig.provider in DefaultApiConfig.providers
    ensures DefaultApiConfig.providers.Keys == {"openai"}
    ensures var d := DefaultApiConfig.providers["openai"];
            d.baseUrl == "https://api.openai.com/v1" && d.apiKey == "" && d.model == "gpt-3.5-turbo"
            && d.maxTokens == Some(2048) && d.stream == Some(true)
    ensures SubmitSettings(DefaultApiConfig, "", "", "").Some?
  {
  }

  /** The `{}` the page starts with, before the configuration is loaded: no provider settings at all. */
  const EmptyApiConfig: ApiConfig := ApiConfig("", map[])

  /** loadApiConfig: the stored configuration as it is, or else a copy of the default one. */
  function LoadedApiConfig(saved: Option<ApiConfig>): (r: ApiConfig)
    ensures saved.Some? ==> r == saved.value
    ensures saved.None? ==> r.provider == "openai" && r.providers.Keys == {"openai"}
    ensures saved.None? ==> r.providers["openai"].apiKey == ""
  {
    match saved
    case Some(cfg) => cfg
    case None => DefaultApiConfig
  }

  /** The three form fields written into one provider's settings; every other field kept. */
  function Overwrite(s: ProviderSettings, baseUrl: string, apiKey: string, model: string): ProviderSettings {
    s.(baseUrl := baseUrl, apiKey := apiKey, model := model)
  }

  /**
   * The settings form's submit: the trimmed fields overwrite baseUrl, apiKey
   * and model of the provider in use. None when the configuration has no
   * settings for that provider, where the source's assignment throws before
   * it changes anything.
   */
  function SubmitSettings(cfg: ApiConfig, baseUrl: string, apiKey: string, model: string): (r: Option<ApiConfig>)
    ensures r.Some? <==> cfg.provider in cfg.providers
    ensures r.Some? ==> r.value.provider == cfg.provider && r.value.providers.Keys == cfg.providers.Keys
    ensures r.Some? ==> forall p :: p in cfg.providers && p != cfg.provider ==> r.value.providers[p] == cfg.providers[p]
    ensures r.Some? ==>
      var was, now := cfg.providers[cfg.provider], r.value.providers[cfg.provider];
      && now.baseUrl == Trim(baseUrl) && now.apiKey == Trim(apiKey) && now.model == Trim(model)
      && now.maxTokens == was.maxTokens && now.stream == was.stream
  {
    if cfg.provider in cfg.providers then
      var was := cfg.providers[cfg.provider];
      Some(cfg.(providers := cfg.providers[cfg.provider := Overwrite(was, Trim(baseUrl), Trim(apiKey), Trim(model))]))
    else
      None
  }

  /** Submitting again the values just saved for the provider in use changes nothing. */
  lemma ResubmitIsNoOp(cfg: ApiConfig, baseUrl: string, apiKey: string, model: string)
    requires cfg.provider in cfg.providers
    ensures var saved := SubmitSettings(cfg, baseUrl, apiKey, model).value;
            var shown := saved.providers[saved.provider];
            SubmitSettings(saved, shown.baseUrl, shown.apiKey, shown.model) == Some(saved)
  {
    var p := cfg.provider;
    var shown := Overwrite(cfg.providers[p], Trim(baseUrl), Trim(apiKey), Trim(model));
    var saved := cfg.(providers := cfg.providers[p := shown]);
    assert SubmitSettings(cfg, baseUrl, apiKey, model) == Some(saved);
    assert saved.providers[saved.provider] == shown;
    TrimIdempotent(baseUrl);
    TrimIdempotent(apiKey);
    TrimIdempotent(model);
    assert Overwrite(shown, Trim(shown.baseUrl), Trim(shown.apiKey), Trim(shown.model)) == shown;
    assert saved.providers[p := shown] == saved.providers;
  }

  /** Submitting twice is the same as submitting the second form alone. */
  lemma LastSubmitWins(cfg: ApiConfig, b1: string, k1: string, m1: string, b2: string, k2: string, m2: string)
    requires cfg.provider in cfg.providers
    ensures SubmitSettings(SubmitSettings(cfg, b1, k1, m1).value, b2, k2, m2) == SubmitSettings(cfg, b2, k2, m2)
  {
    var p, was := cfg.provider, cfg.providers[cfg.provider];
    var u, v, w := Trim(b2), Trim(k2), Trim(m2);
    var first := Overwrite(was, Trim(b1), Trim(k1), Trim(m1));
    var once := cfg.(providers := cfg.providers[p := first]);
    assert SubmitSettings(cfg, b1, k1, m1) == Some(once);
    assert Overwrite(first, u, v, w) == Overwrite(was, u, v, w);
    UpdateTwice(cfg.providers, p, first, Overwrite(was, u, v, w));
  }

  lemma UpdateTwice<K, V>(m: map<K, V>, k: K, a: V, b: V)
    ensures m[k := a][k := b] == m[k := b]
  {
  }
}

/** Model availability and per-provider configuration (`src/config/settings.py`).
    The settings object is an explicit record; loading it from the
    environment is not modelled. */
module Settings {
  import opened Wrappers

  /** The four provider names `default_model` may take. */
  const ModelNames: seq<string> := ["kimi", "claude", "groq", "openai"]

  /** Position of a provider in `ModelNames`, which is also the order in
      which `available_models` lists them. */
  function Rank(m: string): nat {
    if m == "kimi" then 0 else if m == "claude" then 1 else if m == "groq" then 2 else 3
  }

  datatype Settings = Settings(
    anthropicApiKey: Option<string>,
    openaiApiKey: Option<string>,
    groqApiKey: Option<string>,
    kimiApiKey: string,
    kimiApiUrl: string,
    kimiModel: string,
    defaultModel: string,
    maxTokens: int,
    temperature: real,
    agentTimeout: int,
    maxAgentRetries: int,
    mcpContextSize: int,
    logRetentionDays: int)

  /** The bounds the settings fields are declared with. */
  predicate Valid(s: Settings) {
    && s.defaultModel in ModelNames
    && 100 <= s.maxTokens <= 32000
    && 0.0 <= s.temperature <= 2.0
    && 10 <= s.agentTimeout <= 600
    && 1 <= s.maxAgentRetries <= 10
    && 1024 <= s.mcpContextSize <= 32768
    && 1 <= s.logRetentionDays <= 365
  }

  /** The declared field defaults; only the Kimi key has none. */
  function Defaults(kimiApiKey: string): (s: Settings)
    ensures Valid(s)
    ensures s.defaultModel == "kimi" && s.maxTokens == 4000
  {
    Settings(None, None, None, kimiApiKey,
             "https://api.moonshot.ai/v1/chat/completions", "kimi-k2-turbo-preview",
             "kimi", 4000, 0.7, 60, 3, 8192, 30)
  }

  /** `bool(key)`: set and non-empty. */
  predicate HasKey(key: Option<string>) {
    key.Some? && |key.value| > 0
  }

  /** `available_models` */
  function AvailableModels(s: Settings): (r: seq<string>)
    ensures |r| >= 1 && r[0] == "kimi"
    ensures "claude" in r <==> HasKey(s.anthropicApiKey)
    ensures "groq" in r <==> HasKey(s.groqApiKey)
    ensures "openai" in r <==> HasKey(s.openaiApiKey)
    ensures forall m | m in r :: m in ModelNames
    ensures forall i, j | 0 <= i < j < |r| :: Rank(r[i]) < Rank(r[j])
  {
    ["kimi"]
    + (if HasKey(s.anthropicApiKey) then ["claude"] else [])
    + (if HasKey(s.groqApiKey) then ["groq"] else [])
    + (if HasKey(s.openaiApiKey) then ["openai"] else [])
  }

  /** Strictly increasing ranks mean no provider is listed twice. */
  lemma AvailableModelsDistinct(s: Settings)
    ensures forall i, j | 0 <= i < j < |AvailableModels(s)| :: AvailableModels(s)[i] != AvailableModels(s)[j]
  {
  }

  /** `validate_model(model)` */
  predicate ValidateModel(s: Settings, model: string) {
    model in AvailableModels(s)
  }

  datatype ModelConfig = ModelConfig(
    apiKey: Option<string>,
    apiUrl: Option<string>,
    model: string,
    maxTokens: int,
    temperature: real)

  /** `model or self.default_model` */
  function ChosenModel(s: Settings, model: Option<string>): string {
    if model.Some? && |model.value| > 0 then model.value else s.defaultModel
  }

  /** `get_model_config(model)` */
  function GetModelConfig(s: Settings, model: Option<string>): (r: Result<ModelConfig>)
    ensures r.Ok? <==> ChosenModel(s, model) in ModelNames
    ensures r.Raised? ==> r.msg == "Unknown model: " + ChosenModel(s, model)
    ensures r.Ok? ==> r.value.maxTokens == s.maxTokens && r.value.temperature == s.temperature
    ensures ChosenModel(s, model) == "kimi" ==>
              r.Ok? && r.value.model == s.kimiModel && r.value.apiKey == Some(s.kimiApiKey)
              && r.value.apiUrl == Some(s.kimiApiUrl)
    ensures ChosenModel(s, model) == "claude" ==>
              r.Ok? && r.value.model == "claude-sonnet-4-20250514" && r.value.apiKey == s.anthropicApiKey
    ensures ChosenModel(s, model) == "groq" ==>
              r.Ok? && r.value.model == "llama-3.3-70b-versatile" && r.value.apiKey == s.groqApiKey
    ensures ChosenModel(s, model) == "openai" ==>
              r.Ok? && r.value.model == "gpt-4-turbo-preview" && r.value.apiKey == s.openaiApiKey
    ensures r.Ok? && ChosenModel(s, model) != "kimi" ==> r.value.apiUrl.None?
  {
    var m := ChosenModel(s, model);
    if m == "kimi" then
      Ok(ModelConfig(Some(s.kimiApiKey), Some(s.kimiApiUrl), s.kimiModel, s.maxTokens, s.temperature))
    else if m == "claude" then
      Ok(ModelConfig(s.anthropicApiKey, None, "claude-sonnet-4-20250514", s.maxTokens, s.temperature))
    else if m == "groq" then
      Ok(ModelConfig(s.groqApiKey, None, "llama-3.3-70b-versatile", s.maxTokens, s.temperature))
    else if m == "openai" then
      Ok(ModelConfig(s.openaiApiKey, None, "gpt-4-turbo-preview", s.maxTokens, s.temperature))
    else
      Raised("Unknown model: " + m)
  }

  /** With valid settings, asking for the default model always yields a
      configuration. */
  lemma DefaultModelConfigured(s: Settings)
    requires Valid(s)
    ensures GetModelConfig(s, None).Ok?
  {
  }
}

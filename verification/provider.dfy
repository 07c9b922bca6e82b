/**
 * Azure OpenAI configuration: environment lookup, the configuration record and its
 * defaults, the model-name to deployment table, deployment-name resolution, and the
 * status reported by the connection check. The process environment is a map from
 * variable names to values.
 */
module Provider {
  import opened Wrappers
  import opened Errors

  type Env = map<string, string>

  const ENDPOINT_VAR := "AZURE_OPENAI_ENDPOINT"
  const KEY_VAR := "AZURE_OPENAI_KEY"
  const CHAT_API_VERSION_VAR := "AZURE_OPENAI_API_VERSION"
  const EMBEDDING_API_VERSION_VAR := "AZURE_OPENAI_EMBEDDING_API_VERSION"
  const CHAT_DEPLOYMENT_VAR := "AZURE_OPENAI_DEPLOYMENT_CHAT"
  const CHAT_MINI_DEPLOYMENT_VAR := "AZURE_OPENAI_DEPLOYMENT_CHAT_MINI"
  const EMBEDDING_DEPLOYMENT_VAR := "AZURE_OPENAI_DEPLOYMENT_EMBEDDING"

  const DEFAULT_CHAT_API_VERSION := "2024-12-01-preview"
  const DEFAULT_EMBEDDING_API_VERSION := "2023-05-15"
  const DEFAULT_CHAT_DEPLOYMENT := "gpt-4.1"
  const DEFAULT_CHAT_MINI_DEPLOYMENT := "gpt-4.1-mini"
  const DEFAULT_EMBEDDING_DEPLOYMENT := "text-embedding-ada-002"

  const MISSING_VARIABLE := "Missing required environment variable: "
  const UNKNOWN_MODEL := "Unknown model name: "

  /** A required variable: an error when it is unset or set to the empty string. */
  function GetRequiredEnv(env: Env, name: string): (r: Outcome<string>)
    ensures r.Success? <==> name in env && env[name] != ""
    ensures r.Success? ==> r.value == env[name]
    ensures r.Failure? ==> r.error == ValueError(MISSING_VARIABLE + name)
  {
    var value := if name in env then Some(env[name]) else None;
    if value == None || value == Some("") then Failure(ValueError(MISSING_VARIABLE + name))
    else Success(value.value)
  }

  /** An optional variable: the default only when it is unset. */
  function GetOptionalEnv(env: Env, name: string, default: string): (r: string)
    ensures name in env ==> r == env[name]
    ensures name !in env ==> r == default
  {
    if name in env then env[name] else default
  }

  /**
   * The two lookups agree wherever the required one succeeds, and a variable that is
   * set to the empty string is missing for the required lookup but yields "" (not the
   * default) for the optional one.
   */
  lemma RequiredAndOptionalAgree(env: Env, name: string, default: string)
    ensures GetRequiredEnv(env, name).Success? ==>
              GetRequiredEnv(env, name).value == GetOptionalEnv(env, name, default)
    ensures name in env && env[name] == "" ==>
              GetRequiredEnv(env, name).Failure? && GetOptionalEnv(env, name, default) == ""
    ensures name !in env ==>
              GetRequiredEnv(env, name).Failure? && GetOptionalEnv(env, name, default) == default
  {
  }

  /** The `AzureOpenAIConfig` record. */
  datatype Config = Config(
    endpoint: string,
    apiKey: string,
    chatApiVersion: string,
    embeddingApiVersion: string,
    deploymentChat: string,
    deploymentChatMini: string,
    deploymentEmbedding: string)

  /**
   * `AzureOpenAIConfig()`: the endpoint and the key are read first, in that order, and
   * the first one missing is the error raised; the other five fields fall back to
   * their defaults when unset.
   */
  function LoadConfig(env: Env): (r: Outcome<Config>)
    ensures r.Success? <==>
              ENDPOINT_VAR in env && env[ENDPOINT_VAR] != "" && KEY_VAR in env && env[KEY_VAR] != ""
    ensures r.Failure? ==>
              r.error == ValueError(MISSING_VARIABLE +
                (if ENDPOINT_VAR in env && env[ENDPOINT_VAR] != "" then KEY_VAR else ENDPOINT_VAR))
    ensures r.Success? ==>
              && r.value.endpoint == env[ENDPOINT_VAR]
              && r.value.apiKey == env[KEY_VAR]
              && r.value.chatApiVersion == GetOptionalEnv(env, CHAT_API_VERSION_VAR, DEFAULT_CHAT_API_VERSION)
              && r.value.embeddingApiVersion == GetOptionalEnv(env, EMBEDDING_API_VERSION_VAR, DEFAULT_EMBEDDING_API_VERSION)
              && r.value.deploymentChat == GetOptionalEnv(env, CHAT_DEPLOYMENT_VAR, DEFAULT_CHAT_DEPLOYMENT)
              && r.value.deploymentChatMini == GetOptionalEnv(env, CHAT_MINI_DEPLOYMENT_VAR, DEFAULT_CHAT_MINI_DEPLOYMENT)
              && r.value.deploymentEmbedding == GetOptionalEnv(env, EMBEDDING_DEPLOYMENT_VAR, DEFAULT_EMBEDDING_DEPLOYMENT)
  {
    var endpoint := GetRequiredEnv(env, ENDPOINT_VAR);
    if endpoint.Failure? then Failure(endpoint.error)
    else
      var apiKey := GetRequiredEnv(env, KEY_VAR);
      if apiKey.Failure? then Failure(apiKey.error)
      else
        Success(Config(
          endpoint.value,
          apiKey.value,
          GetOptionalEnv(env, CHAT_API_VERSION_VAR, DEFAULT_CHAT_API_VERSION),
          GetOptionalEnv(env, EMBEDDING_API_VERSION_VAR, DEFAULT_EMBEDDING_API_VERSION),
          GetOptionalEnv(env, CHAT_DEPLOYMENT_VAR, DEFAULT_CHAT_DEPLOYMENT),
          GetOptionalEnv(env, CHAT_MINI_DEPLOYMENT_VAR, DEFAULT_CHAT_MINI_DEPLOYMENT),
          GetOptionalEnv(env, EMBEDDING_DEPLOYMENT_VAR, DEFAULT_EMBEDDING_DEPLOYMENT)))
  }

  /** With the optional variables unset, the configuration takes the documented defaults. */
  lemma DefaultsWhenUnset(env: Env)
    requires ENDPOINT_VAR in env && env[ENDPOINT_VAR] != "" && KEY_VAR in env && env[KEY_VAR] != ""
    requires CHAT_API_VERSION_VAR !in env && EMBEDDING_API_VERSION_VAR !in env
    requires CHAT_DEPLOYMENT_VAR !in env && CHAT_MINI_DEPLOYMENT_VAR !in env
    requires EMBEDDING_DEPLOYMENT_VAR !in env
    ensures LoadConfig(env) == Success(Config(env[ENDPOINT_VAR], env[KEY_VAR],
                                              "2024-12-01-preview", "2023-05-15",
                                              "gpt-4.1", "gpt-4.1-mini", "text-embedding-ada-002"))
  {
  }

  /** The model-name to deployment table built by `_initialize_model_mapping`. */
  function ModelTable(config: Config): (m: map<string, string>)
    ensures m.Keys == {"gpt-4o", "gpt-4o-mini", "gpt-4", "text-embedding-ada-002", "text-embedding-3-small"}
    ensures |m| == 5
    ensures m["gpt-4o"] == m["gpt-4"] == config.deploymentChat
    ensures m["gpt-4o-mini"] == config.deploymentChatMini
    ensures m["text-embedding-ada-002"] == m["text-embedding-3-small"] == config.deploymentEmbedding
    ensures forall name :: name in m ==> m[name] in Deployments(config)
  {
    var m := map[
      "gpt-4o" := config.deploymentChat,
      "gpt-4o-mini" := config.deploymentChatMini,
      "gpt-4" := config.deploymentChat,
      "text-embedding-ada-002" := config.deploymentEmbedding,
      "text-embedding-3-small" := config.deploymentEmbedding];
    assert |m.Keys| == 5 by {
      assert m.Keys == {"gpt-4o"} + {"gpt-4o-mini"} + {"gpt-4"} + {"text-embedding-ada-002"} + {"text-embedding-3-small"};
    }
    m
  }

  /** The three configured deployment names. */
  function Deployments(config: Config): set<string> {
    {config.deploymentChat, config.deploymentChatMini, config.deploymentEmbedding}
  }

  /**
   * The module's global state: the configuration loaded at import time and the
   * model-name table, which starts empty and is replaced by `InitializeModelMapping`.
   */
  class Registry {
    const config: Config
    var modelToDeployment: map<string, string>

    constructor (config: Config)
      ensures this.config == config && modelToDeployment == map[]
    {
      this.config := config;
      modelToDeployment := map[];
    }

    /** `_initialize_model_mapping`: replaces the whole table. */
    method InitializeModelMapping(config: Config)
      modifies this
      ensures modelToDeployment == ModelTable(config)
    {
      modelToDeployment := ModelTable(config);
    }

    /**
     * `get_deployment_name`: the table first, then a name that already is one of the
     * three configured deployments resolves to itself, and anything else is an error.
     */
    function GetDeploymentName(name: string): (r: Outcome<string>)
      reads this
      ensures r.Success? <==> name in modelToDeployment || name in Deployments(config)
      ensures name in modelToDeployment ==> r == Success(modelToDeployment[name])
      ensures name !in modelToDeployment && name in Deployments(config) ==> r == Success(name)
      ensures r.Failure? ==> r.error == ValueError(UNKNOWN_MODEL + name)
    {
      if name in modelToDeployment then Success(modelToDeployment[name])
      else if name in [config.deploymentChat, config.deploymentChatMini, config.deploymentEmbedding] then
        Success(name)
      else Failure(ValueError(UNKNOWN_MODEL + name))
    }
  }

  /**
   * Once the table is built from the registry's own configuration, resolution succeeds
   * exactly for the five model names and the three deployment names, and always yields
   * one of the three configured deployments.
   */
  lemma ResolvesToConfiguredDeployment(registry: Registry, name: string)
    requires registry.modelToDeployment == ModelTable(registry.config)
    ensures registry.GetDeploymentName(name).Success? <==>
              name in ModelTable(registry.config).Keys || name in Deployments(registry.config)
    ensures registry.GetDeploymentName(name).Success? ==>
              registry.GetDeploymentName(name).value in Deployments(registry.config)
  {
  }

  /**
   * The table is consulted before the identity fallback: a model name that is also a
   * configured deployment resolves through the table, not to itself.
   */
  lemma TableBeforeIdentity(registry: Registry, name: string)
    requires registry.modelToDeployment == ModelTable(registry.config)
    requires name in ModelTable(registry.config) && name in Deployments(registry.config)
    ensures registry.GetDeploymentName(name) == Success(ModelTable(registry.config)[name])
  {
  }

  /** For instance "gpt-4o" configured as the mini deployment still resolves to the
      main chat deployment. */
  lemma MiniNamedAfterModel(registry: Registry)
    requires registry.modelToDeployment == ModelTable(registry.config)
    requires registry.config.deploymentChatMini == "gpt-4o"
    ensures registry.GetDeploymentName("gpt-4o") == Success(registry.config.deploymentChat)
  {
    TableBeforeIdentity(registry, "gpt-4o");
  }

  /** Before the table is built only the identity fallback applies. */
  lemma UninitialisedIdentityOnly(registry: Registry, name: string)
    requires registry.modelToDeployment == map[]
    ensures registry.GetDeploymentName(name) ==
              if name in Deployments(registry.config) then Success(name)
              else Failure(ValueError(UNKNOWN_MODEL + name))
  {
  }

  /**
   * The dictionary returned by `validate_azure_connection` once both probes answered:
   * "healthy" exactly when both are fine, each component "ok" or "failed" on its own.
   */
  function ConnectionStatus(chatOk: bool, embeddingOk: bool, endpoint: string): (s: map<string, string>)
    ensures s.Keys == {"status", "chat_completion", "embeddings", "endpoint"}
    ensures s["status"] in {"healthy", "degraded"}
    ensures s["status"] == "healthy" <==> chatOk && embeddingOk
    ensures s["chat_completion"] == "ok" <==> chatOk
    ensures s["embeddings"] == "ok" <==> embeddingOk
    ensures s["chat_completion"] in {"ok", "failed"} && s["embeddings"] in {"ok", "failed"}
    ensures s["endpoint"] == endpoint
  {
    map[
      "status" := if chatOk && embeddingOk then "healthy" else "degraded",
      "chat_completion" := if chatOk then "ok" else "failed",
      "embeddings" := if embeddingOk then "ok" else "failed",
      "endpoint" := endpoint]
  }

  /**
   * `validate_azure_connection`, given the outcome of the chat probe (the message
   * content, absent when null) and of the embedding probe (the vector's length). An
   * exception from either probe is re-raised, and the embedding probe is not made
   * when the chat probe raised.
   */
  function ValidateAzureConnection(config: Config, chat: Outcome<Option<string>>, embedding: Outcome<nat>)
    : (r: Outcome<map<string, string>>)
    ensures r.Success? <==> chat.Success? && embedding.Success?
    ensures chat.Failure? ==> r == Failure(chat.error)
    ensures chat.Success? && embedding.Failure? ==> r == Failure(embedding.error)
    ensures r.Success? ==>
              && r.value.Keys == {"status", "chat_completion", "embeddings", "endpoint"}
              && (r.value["status"] == "healthy" <==> chat.value.Some? && embedding.value > 0)
              && r.value["endpoint"] == config.endpoint
    ensures r.Success? ==> r.value == ConnectionStatus(chat.value.Some?, embedding.value > 0, config.endpoint)
  {
    match chat
    case Failure(e) => Failure(e)
    case Success(content) =>
      var chatOk := content.Some?;
      match embedding
      case Failure(e) => Failure(e)
      case Success(length) =>
        var embeddingOk := length > 0;
        Success(ConnectionStatus(chatOk, embeddingOk, config.endpoint))
  }
}

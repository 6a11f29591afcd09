/**
 * `utils/model_loader.py`: `ModelLoader` checks the two API keys it needs, records the
 * Groq key, and turns config entries into the embedding model and the chat model.
 */
module ModelLoading {
  import opened Wrappers
  import opened Environment
  import opened Config
  import opened Handles

  const GROQ_API_KEY := "GROQ_API_KEY"

  /** The variables `_validate_env` requires, in the order it checks them. */
  const REQUIRED_VARS: seq<string> := [GOOGLE_API_KEY, GROQ_API_KEY]

  /** The names `_validate_env` reports: required, in order, and unset or empty. */
  function MissingVars(env: Env): (r: seq<string>)
    ensures IsSubsequence(r, REQUIRED_VARS)
    ensures forall v :: v in r <==> v in REQUIRED_VARS && (v !in env || env[v] == "")
    ensures r == [] <==> GOOGLE_API_KEY in env && env[GOOGLE_API_KEY] != ""
                         && GROQ_API_KEY in env && env[GROQ_API_KEY] != ""
  {
    UnsetOrEmptyVars(REQUIRED_VARS, env)
  }

  class ModelLoader {
    var groqApiKey: Option<string>
    var config: Config

    /** The object as `__init__` finds it: no attribute assigned yet. */
    constructor ()
      ensures groqApiKey == None && config == map[]
    {
      groqApiKey := None;
      config := map[];
    }

    /**
     * `_validate_env`: records `os.getenv("GROQ_API_KEY")` first, whether or not the
     * check that follows passes, then raises iff some required key is unset or empty.
     */
    method ValidateEnv(env: Env) returns (o: Outcome<EnvError>)
      modifies this`groqApiKey
      ensures groqApiKey == GetEnv(env, GROQ_API_KEY)
      ensures o.Pass? <==> MissingVars(env) == []
      ensures o.Fail? ==> o.error == MissingEnvironmentVariables(MissingVars(env))
    {
      groqApiKey := GetEnv(env, GROQ_API_KEY);
      var missing := MissingVars(env);
      o := RaiseIfMissing(missing);
    }

    /** `load_embeddings`: the embedding model named by `config["embedding_model"]["model_name"]`. */
    function LoadEmbeddings(): (r: Result<Embedder, ConfigError>)
      reads this
      ensures r.Success? <==> HasEntry(config, "embedding_model", "model_name")
      ensures r.Success? ==> r.value.model == config["embedding_model"].entries["model_name"]
      ensures r.Failure? ==> Lookup(config, "embedding_model", "model_name") == Failure(r.error)
    {
      match Lookup(config, "embedding_model", "model_name")
      case Success(name) => Success(GoogleGenerativeAIEmbeddings(name))
      case Failure(e) => Failure(e)
    }

    /**
     * `load_llm`: the Groq chat model named by `config["llm"]["model_name"]`, given the
     * API key recorded by `_validate_env`.
     */
    function LoadLlm(): (r: Result<ChatModel, ConfigError>)
      reads this
      ensures r.Success? <==> HasEntry(config, "llm", "model_name")
      ensures r.Success? ==> r.value.model == config["llm"].entries["model_name"]
      ensures r.Success? ==> r.value.apiKey == groqApiKey
      ensures r.Failure? ==> Lookup(config, "llm", "model_name") == Failure(r.error)
    {
      match Lookup(config, "llm", "model_name")
      case Success(name) => Success(ChatGroq(name, groqApiKey))
      case Failure(e) => Failure(e)
    }
  }

  /**
   * `ModelLoader()`: validates the environment, then stores the config. The config
   * is only read once validation has passed.
   */
  method NewModelLoader(env: Env, config: Config) returns (r: Result<ModelLoader, EnvError>)
    ensures r.Success? <==> MissingVars(env) == []
    ensures r.Failure? ==> r.error == MissingEnvironmentVariables(MissingVars(env))
    ensures r.Success? ==> fresh(r.value) && r.value.config == config
    ensures r.Success? ==> r.value.groqApiKey == Some(env[GROQ_API_KEY]) && r.value.groqApiKey.value != ""
  {
    var loader := new ModelLoader();
    var o := loader.ValidateEnv(env);
    if o.Fail? {
      return Failure(o.error);
    }
    loader.config := config;
    r := Success(loader);
  }
}

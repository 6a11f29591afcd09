/**
 * `retriever/retrieval.py`: `Retriever` validates its credentials, builds the AstraDB
 * vector store lazily on first use and reuses it, and wraps it in a retriever that
 * returns `top_k` documents per query.
 */
module Retrieval {
  import opened Wrappers
  import opened Environment
  import opened Config
  import opened Handles
  import ModelLoading

  /** The result count used when the config has no `retriever` section. */
  const DEFAULT_TOP_K: Yaml := YInt(3)

  /**
   * `config["retriever"]["top_k"] if "retriever" in config else 3`. The default only
   * applies when the whole section is absent: a `retriever` section without `top_k`
   * (or one that is not a mapping) raises.
   */
  function TopK(cfg: Config): (r: Result<Yaml, ConfigError>)
    ensures "retriever" !in cfg ==> r == Success(DEFAULT_TOP_K)
    ensures HasEntry(cfg, "retriever", "top_k") ==> r == Success(cfg["retriever"].entries["top_k"])
    ensures r.Failure? <==> "retriever" in cfg && !HasEntry(cfg, "retriever", "top_k")
    ensures r.Failure? ==> Lookup(cfg, "retriever", "top_k") == Failure(r.error)
  {
    if "retriever" in cfg then Lookup(cfg, "retriever", "top_k") else Success(DEFAULT_TOP_K)
  }

  datatype RetrievalError =
    | Configuration(cause: ConfigError)
    | NoneHasNoInvoke      // AttributeError: `load_retriever` returned None

  class Retriever {
    const modelLoader: ModelLoading.ModelLoader
    const config: Config
    var googleApiKey: Option<string>
    var dbApiEndpoint: Option<string>
    var dbApplicationToken: Option<string>
    var dbKeyspace: Option<string>
    var vstore: AstraDBVectorStore?
    /** Set to None by `__init__` and never assigned again. */
    var retriever: VectorStoreRetriever?
    /** How many vector stores this object has constructed. */
    ghost var storeBuilds: nat

    /** `__init__` without the credential check: both cached handles start as None. */
    constructor (modelLoader: ModelLoading.ModelLoader, config: Config)
      ensures this.modelLoader == modelLoader && this.config == config
      ensures googleApiKey == None && dbApiEndpoint == None
      ensures dbApplicationToken == None && dbKeyspace == None
      ensures vstore == null && retriever == null && storeBuilds == 0
      ensures Valid()
    {
      this.modelLoader := modelLoader;
      this.config := config;
      googleApiKey, dbApiEndpoint, dbApplicationToken, dbKeyspace := None, None, None, None;
      vstore, retriever := null, null;
      storeBuilds := 0;
    }

    /** No store exists before the first construction, and there is at most one. */
    ghost predicate Valid()
      reads this
    {
      (vstore == null ==> storeBuilds == 0) && storeBuilds <= 1
    }

    /**
     * The constructor arguments `load_retriever` computes for the store, in its order:
     * `config["astra_db"]["collection_name"]` first, then the embedding model.
     */
    function StoreSetup(): (r: Result<(Yaml, Embedder), ConfigError>)
      reads this, modelLoader
      ensures r.Success? <==> HasEntry(config, "astra_db", "collection_name")
                              && modelLoader.LoadEmbeddings().Success?
      ensures r.Success? ==> r.value.0 == config["astra_db"].entries["collection_name"]
      ensures r.Success? ==> r.value.1 == modelLoader.LoadEmbeddings().value
      ensures !HasEntry(config, "astra_db", "collection_name") ==>
                r == Failure(Lookup(config, "astra_db", "collection_name").error)
      ensures HasEntry(config, "astra_db", "collection_name") && modelLoader.LoadEmbeddings().Failure? ==>
                r == Failure(modelLoader.LoadEmbeddings().error)
    {
      match Lookup(config, "astra_db", "collection_name")
      case Failure(e) => Failure(e)
      case Success(collectionName) =>
        match modelLoader.LoadEmbeddings()
        case Failure(e) => Failure(e)
        case Success(embedding) => Success((collectionName, embedding))
    }

    /** `vstore` was built from this object's config, embedding model and credentials. */
    ghost predicate BuiltFromSetup()
      reads this, modelLoader
      requires vstore != null
    {
      && StoreSetup().Success?
      && vstore.collectionName == StoreSetup().value.0
      && vstore.embedding == StoreSetup().value.1
      && vstore.apiEndpoint == dbApiEndpoint
      && vstore.token == dbApplicationToken
      && vstore.namespace == dbKeyspace
    }

    /**
     * `_load_env_variables`: raises iff a required variable is not set (an empty
     * value counts as set); otherwise the four credential attributes hold exactly the
     * environment's values.
     */
    method LoadEnvVariables(env: Env) returns (o: Outcome<EnvError>)
      modifies this`googleApiKey, this`dbApiEndpoint, this`dbApplicationToken, this`dbKeyspace
      ensures o.Pass? <==> AstraMissingVars(env) == []
      ensures o.Fail? ==> o.error == MissingEnvironmentVariables(AstraMissingVars(env))
      ensures o.Fail? ==> unchanged(this)
      ensures o.Pass? ==>
                && googleApiKey == Some(env[GOOGLE_API_KEY])
                && dbApiEndpoint == Some(env[ASTRA_DB_API_ENDPOINT])
                && dbApplicationToken == Some(env[ASTRA_DB_APPLICATION_TOKEN])
                && dbKeyspace == Some(env[ASTRA_DB_KEYSPACE])
    {
      var missing := AstraMissingVars(env);
      o := RaiseIfMissing(missing);
      if o.Fail? {
        return;
      }
      googleApiKey := GetEnv(env, GOOGLE_API_KEY);
      dbApiEndpoint := GetEnv(env, ASTRA_DB_API_ENDPOINT);
      dbApplicationToken := GetEnv(env, ASTRA_DB_APPLICATION_TOKEN);
      dbKeyspace := GetEnv(env, ASTRA_DB_KEYSPACE);
    }

    /**
     * `load_retriever`. The store is built only when none exists yet (and then at most
     * once over the object's life); an existing store is reused. Because `retriever`
     * is never assigned, every call that gets past the store returns a new retriever
     * over that store with `k = top_k`; were `retriever` set, the call would return None.
     */
    method LoadRetriever() returns (r: Result<VectorStoreRetriever?, RetrievalError>)
      requires Valid()
      modifies this`vstore, this`storeBuilds
      ensures Valid() && retriever == old(retriever)
      ensures old(vstore) != null ==> vstore == old(vstore) && storeBuilds == old(storeBuilds)
      ensures old(vstore) == null && StoreSetup().Failure? ==>
                vstore == null && storeBuilds == old(storeBuilds)
                && r == Failure(Configuration(StoreSetup().error))
      ensures old(vstore) == null && StoreSetup().Success? ==>
                vstore != null && fresh(vstore) && BuiltFromSetup() && storeBuilds == old(storeBuilds) + 1
      ensures vstore != null && retriever != null ==> r == Success(null)
      ensures vstore != null && retriever == null && TopK(config).Failure? ==>
                r == Failure(Configuration(TopK(config).error))
      ensures vstore != null && retriever == null && TopK(config).Success? ==>
                r.Success? && r.value != null && fresh(r.value)
                && r.value.vectorstore == vstore && r.value.k == TopK(config).value
    {
      if vstore == null {
        var setup := StoreSetup();
        if setup.Failure? {
          return Failure(Configuration(setup.error));
        }
        var (collectionName, embedding) := setup.value;
        vstore := new AstraDBVectorStore(embedding, collectionName, dbApiEndpoint, dbApplicationToken, dbKeyspace);
        storeBuilds := storeBuilds + 1;
      }
      if retriever == null {
        var topK := TopK(config);
        if topK.Failure? {
          return Failure(Configuration(topK.error));
        }
        var fromStore := new VectorStoreRetriever(vstore, topK.value);
        return Success(fromStore);
      }
      r := Success(null);
    }

    /**
     * `call_retriever`: loads the retriever afresh on every call and returns exactly
     * what the similarity search gives for the query with the configured `k`.
     */
    method CallRetriever(query: string, search: Search) returns (r: Result<seq<Document>, RetrievalError>)
      requires Valid()
      modifies this`vstore, this`storeBuilds
      ensures Valid()
      ensures old(vstore) != null ==> vstore == old(vstore) && storeBuilds == old(storeBuilds)
      ensures old(vstore) == null && StoreSetup().Failure? ==>
                vstore == null && storeBuilds == old(storeBuilds)
                && r == Failure(Configuration(StoreSetup().error))
      ensures old(vstore) == null && StoreSetup().Success? ==>
                vstore != null && fresh(vstore) && BuiltFromSetup() && storeBuilds == old(storeBuilds) + 1
      ensures r.Success? <==> vstore != null && retriever == null && TopK(config).Success?
      ensures r.Success? ==> r.value == search(vstore, TopK(config).value, query)
      ensures vstore != null && retriever != null ==> r == Failure(NoneHasNoInvoke)
      ensures vstore != null && retriever == null && TopK(config).Failure? ==>
                r == Failure(Configuration(TopK(config).error))
    {
      var loaded := LoadRetriever();
      if loaded.Failure? {
        return Failure(loaded.error);
      }
      var fromStore := loaded.value;
      if fromStore == null {
        return Failure(NoneHasNoInvoke);
      }
      r := Success(search(fromStore.vectorstore, fromStore.k, query));
    }
  }

  /**
   * Two successive `load_retriever` calls on a fresh-state object, as `invoke_chain`
   * makes one per chat request: both share one store, built at most once, and each
   * gets its own retriever.
   */
  method LoadTwice(ret: Retriever) returns (first: Result<VectorStoreRetriever?, RetrievalError>,
                                           second: Result<VectorStoreRetriever?, RetrievalError>)
    requires ret.Valid() && ret.retriever == null
    modifies ret`vstore, ret`storeBuilds
    ensures ret.Valid() && ret.storeBuilds <= 1
    ensures first.Success? && second.Success? ==>
              && first.value != null && second.value != null
              && first.value != second.value
              && first.value.vectorstore == second.value.vectorstore == ret.vstore
  {
    first := ret.LoadRetriever();
    second := ret.LoadRetriever();
  }

  /**
   * `Retriever()`: builds the ModelLoader (absent-or-empty check on the Google and
   * Groq keys), stores the config, then checks the AstraDB variables (absence only).
   * The first failing check decides the error.
   */
  method NewRetriever(env: Env, config: Config) returns (r: Result<Retriever, EnvError>)
    ensures r.Success? <==> ModelLoading.MissingVars(env) == [] && AstraMissingVars(env) == []
    ensures ModelLoading.MissingVars(env) != [] ==>
              r == Failure(MissingEnvironmentVariables(ModelLoading.MissingVars(env)))
    ensures ModelLoading.MissingVars(env) == [] && AstraMissingVars(env) != [] ==>
              r == Failure(MissingEnvironmentVariables(AstraMissingVars(env)))
    ensures r.Success? ==> fresh(r.value) && fresh(r.value.modelLoader) && r.value.Valid()
    ensures r.Success? ==>
              && r.value.vstore == null && r.value.retriever == null && r.value.storeBuilds == 0
              && r.value.config == config && r.value.modelLoader.config == config
    ensures r.Success? ==>
              && r.value.googleApiKey == GetEnv(env, GOOGLE_API_KEY)
              && r.value.dbApiEndpoint == GetEnv(env, ASTRA_DB_API_ENDPOINT)
              && r.value.dbApplicationToken == GetEnv(env, ASTRA_DB_APPLICATION_TOKEN)
              && r.value.dbKeyspace == GetEnv(env, ASTRA_DB_KEYSPACE)
  {
    var loader := ModelLoading.NewModelLoader(env, config);
    if loader.Failure? {
      return Failure(loader.error);
    }
    var ret := new Retriever(loader.value, config);
    var o := ret.LoadEnvVariables(env);
    if o.Fail? {
      return Failure(o.error);
    }
    r := Success(ret);
  }
}

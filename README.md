# Retrieval-augmented product chatbot: the deterministic core

This project models, in Dafny, the deterministic logic underneath a retrieval-augmented
chatbot that answers product questions from Flipkart reviews stored in AstraDB:

- **Ingestion** (`data_ingestion/ingestion_pipeline.py`): `DataIngestion` checks its
  credentials and the review table's columns. `transform_data` turns each row
  `{product_title, rating, summary, review}` into one LangChain `Document`. The document's
  body is the review. Its metadata is `{product_name, product_rating, product_summary}`.
- **Environment checks**: the ordered list of missing variables, computed two ways.
  `DataIngestion` and `Retriever` count only *unset* variables as missing. `ModelLoader`
  also counts *empty* ones.
- **Retriever** (`retriever/retrieval.py`): the AstraDB vector store is built lazily, at
  most once per object, and reused. `top_k` falls back to 3 when the config has no
  `retriever` section. Because `self.retriever` is never assigned, every call builds a
  new retriever.
- **ModelLoader** (`utils/model_loader.py`): it checks the Google and Groq keys and
  records the Groq key. It picks the embedding and chat model names from the config.

Modules: `Wrappers` (Option, Result, Outcome), `Environment` (the environment map and the
missing-variable rules), `Config` (the YAML document and `config[section][key]`),
`Handles` (opaque stand-ins for the library objects), `ModelLoading`, `Ingestion` and
`Retrieval`.

The environment is a `map<string, string>` input, as it stands after `load_dotenv()`.
The config is a parsed YAML value. The CSV is a `Table` of column names and rows.
The remote similarity search is a function parameter `(store, k, query) -> documents`.
A Python `__init__` that may raise is modelled in three parts:

- a constructor that sets the fields' starting values;
- methods that assign fields as the Python does (`ValidateEnv`, `LoadEnvVariables`);
- a factory method (`NewModelLoader`, `NewDataIngestion`, `NewRetriever`) that runs the
  steps in the source's order and returns the first error.

### Notes on the code's behaviour

- `top_k` defaults to 3 only when the whole `retriever` section is absent. A `retriever`
  section without `top_k` raises `KeyError`. Nothing checks that `top_k` is positive.
  `Retrieval.TopK` states this.
- Only the vector store is cached. A new retriever object is built on every
  `load_retriever` call.
- `astra_db.collection_name`, the model names and `top_k` are read lazily, at first use,
  so a missing entry fails then and not at construction.
- Credentials are checked under two rules: absence only, or absent-or-empty. Since
  `ModelLoader()` runs first inside `DataIngestion()` and `Retriever()`, an empty
  `GOOGLE_API_KEY` makes both constructors fail anyway (`NewDataIngestion`, `NewRetriever`).
- Ingestion prints and returns the inserted ids (`store_in_vector_db`) but reports no failed rows.

## Model

| member | source | states |
|---|---|---|
| `Environment.GetEnv` | data_ingestion/ingestion_pipeline.py:38 | `os.getenv`: Some(value) exactly when the variable is set, None otherwise |
| `Environment.Filter` | data_ingestion/ingestion_pipeline.py:34 | a list comprehension: keeps exactly the elements that pass the test, in their order (a subsequence of the input), never longer than the input |
| `Environment.FilterMultiplicity` | data_ingestion/ingestion_pipeline.py:34 | the comprehension keeps each passing element as many times as it occurs and drops each failing one |
| `Environment.AbsentVars` | data_ingestion/ingestion_pipeline.py:34 | the `is None` rule: the missing list is the required list, in order, restricted to unset names; it is empty iff every required name is set (an empty value counts as set) |
| `Environment.UnsetOrEmptyVars` | utils/model_loader.py:23 | the `not os.getenv` rule: the missing list is the required list, in order, restricted to names unset or set to ""; it is empty iff every required name has a non-empty value |
| `Environment.AstraMissingVars` | data_ingestion/ingestion_pipeline.py:32-34 | the four AstraDB/Google names that are unset, in order; empty iff all four are set. `retriever/retrieval.py:22-24` declares the same list and rule |
| `Environment.RaiseIfMissing` | data_ingestion/ingestion_pipeline.py:35-36 | the check raises iff the missing list is non-empty, and the error carries that list |
| `Environment.FilterMonotone` | utils/model_loader.py:23 | filtering by a test that implies another keeps a subsequence of what the other keeps |
| `Environment.AbsentIsSubsequenceOfUnsetOrEmpty` | utils/model_loader.py:23 | every name the `is None` rule reports is also reported by the `not os.getenv` rule, in the same relative order |
| `Environment.EmptyValueSplitsTheRules` | utils/model_loader.py:23 | a required variable set to "" passes the absence rule but makes the absent-or-empty check raise |
| `Config.Lookup` | retriever/retrieval.py:37 | `config[section][key]` gives the stored value iff the section exists, is a mapping and holds the key; otherwise KeyError for the missing key or TypeError for a non-mapping section |
| `ModelLoading.MissingVars` | utils/model_loader.py:20-23 | the required list is exactly `[GOOGLE_API_KEY, GROQ_API_KEY]`; the missing list keeps that order and is empty iff both are set and non-empty |
| `ModelLoading.ModelLoader.constructor` | utils/model_loader.py:11 | before `__init__`'s body runs, no Groq key is recorded and no config is held |
| `ModelLoading.ModelLoader.ValidateEnv` | utils/model_loader.py:16-25 | the Groq key is recorded from the environment whether or not the check then passes; it raises iff the absent-or-empty missing list is non-empty, carrying that list |
| `ModelLoading.ModelLoader.LoadEmbeddings` | utils/model_loader.py:27-33 | it succeeds iff `config["embedding_model"]["model_name"]` exists, and the embedding model gets that name; otherwise the lookup's error |
| `ModelLoading.ModelLoader.LoadLlm` | utils/model_loader.py:35-43 | it succeeds iff `config["llm"]["model_name"]` exists; the Groq model gets that name and the recorded Groq key; otherwise the lookup's error |
| `ModelLoading.NewModelLoader` | utils/model_loader.py:11-14 | construction succeeds iff both keys are set and non-empty; then the stored Groq key is the environment's, non-empty, and the config is held; otherwise the missing list is raised |
| `Ingestion.LoadCsv` | data_ingestion/ingestion_pipeline.py:57-67 | the table is accepted iff {product_title, rating, summary, review} is a subset of its columns, so extra columns never cause rejection; otherwise ValueError naming the expected columns |
| `Ingestion.ProductEntry` | data_ingestion/ingestion_pipeline.py:76-81 | the intermediate entry has exactly the keys product_name, product_rating, product_summary and product_review, holding the row's title, rating, summary and review |
| `Ingestion.ToDocument` | data_ingestion/ingestion_pipeline.py:76-92 | the document's body is the row's review, unchanged; its metadata has exactly the keys product_name, product_rating and product_summary, holding the row's title, rating and summary; there is no product_review key |
| `Ingestion.ToRow` | data_ingestion/ingestion_pipeline.py:86-92 | the inverse renaming yields exactly the four source columns |
| `Ingestion.RowRoundTrip` | data_ingestion/ingestion_pipeline.py:77-92 | no field is lost: the four expected columns of any row are recovered from its document |
| `Ingestion.DocumentRoundTrip` | data_ingestion/ingestion_pipeline.py:86-92 | no field is invented: a document with the fixed metadata keys is the one built from its own recovered row |
| `Ingestion.DataIngestion.constructor` | data_ingestion/ingestion_pipeline.py:20 | after the ModelLoader is stored, no credential, table or config is held yet |
| `Ingestion.DataIngestion.LoadEnvVariables` | data_ingestion/ingestion_pipeline.py:26-41 | it raises iff a required AstraDB/Google variable is unset, carrying the ordered missing list, and then changes nothing; otherwise the four credential fields hold exactly the environment's values |
| `Ingestion.DataIngestion.TransformData` | data_ingestion/ingestion_pipeline.py:69-96 | one document per row, so the output length equals the row count; document i is `ToDocument` of row i |
| `Ingestion.NewDataIngestion` | data_ingestion/ingestion_pipeline.py:15-24 | construction succeeds iff the Google and Groq keys are set and non-empty, the four AstraDB/Google variables are set, the CSV exists and it has the expected columns. The first failing step decides the error, down to `MissingColumns` for a table lacking a column. On success the credentials, table and config are the inputs, and the stored ModelLoader holds the config and the Groq key |
| `Retrieval.TopK` | retriever/retrieval.py:47 | 3 when the config has no `retriever` section; `config["retriever"]["top_k"]` when that entry exists; it fails iff the section exists but the entry does not |
| `Retrieval.Retriever.constructor` | retriever/retrieval.py:11-16 | after construction `vstore` and `retriever` are both None and no store has been built |
| `Retrieval.Retriever.StoreSetup` | retriever/retrieval.py:37-40 | the store's arguments are `config["astra_db"]["collection_name"]` and the embedding model; they are available iff both lookups succeed; otherwise the error is the collection-name lookup's, or, when that succeeds, the embedding lookup's |
| `Retrieval.Retriever.LoadEnvVariables` | retriever/retrieval.py:18-32 | the same absence-only rule and credential assignment as ingestion: it raises iff a required variable is unset; otherwise the fields hold the environment's values |
| `Retrieval.Retriever.LoadRetriever` | retriever/retrieval.py:35-50 | the store is built only when `vstore` is unset, and at most once over the object's life. An existing store is reused. `retriever` is not assigned. With `retriever` unset, each call returns a new retriever over the store with `k = top_k`; were it set, the call would return None. Lookup failures are raised |
| `Retrieval.Retriever.CallRetriever` | retriever/retrieval.py:54-57 | each call reloads the retriever and returns exactly the search result for the query over the current store with `k = top_k`; a None retriever would raise |
| `Retrieval.LoadTwice` | retriever/retrieval.py:35-50 | two successive loads share one store, built at most once, and return two distinct retrievers |
| `Retrieval.NewRetriever` | retriever/retrieval.py:11-16 | construction succeeds iff the Google and Groq keys are set and non-empty and the four AstraDB/Google variables are set; the first failing check decides the error; on success both handles are None, no store is built and the fields hold the environment's values |
| `Handles.AstraDBVectorStore.constructor` | retriever/retrieval.py:39-45 | the store records the embedding model, collection name, endpoint, token and namespace it was given |
| `Handles.VectorStoreRetriever.constructor` | retriever/retrieval.py:48 | the retriever records its store and `k` |

## Left out

- AstraDB itself. This covers `AstraDBVectorStore`'s connection, `add_documents`, `similarity_search` and `as_retriever().invoke`. They are remote calls, kept as opaque handles. Search ranking and result-count bounds are not modelled. Failures inside these calls (network, authentication) are not modelled either.
- `DataIngestion.store_in_vector_db` and `run_pipeline` (data_ingestion/ingestion_pipeline.py:98-128). They construct the store and insert documents, which are foreign calls, and they run a sample query and print.
- The Google embedding and Groq chat model constructors. They are remote services. Only the arguments they receive are recorded.
- `pd.read_csv`, the CSV path lookup (`os.getcwd`, `os.path.join`, `os.path.exists`), `load_dotenv` and `load_config`. All are I/O. Their results are inputs: a `Table`, whether the file exists, the environment map and the parsed config. Each `load_config()` call reads the same file, so one config value stands for all of them.
- pandas' type inference. Cells are carried as text, so a numeric `rating` is the CSV's text for it. Floating-point and NaN cells are not modelled, and neither is LangChain's validation of `page_content`.
- Config keys are strings, and floating-point YAML scalars are not modelled.
- Python truthiness of the store object: `if not self.vstore` is taken to mean "is None". A store object is always truthy.
- The FastAPI app, routes and templates and the chain in `invoke_chain` (main.py). The prompt registry it uses, `prompt_library/prompt.py`, is not part of this model.
- config/config_loader.py and test.py. They read the YAML file and print values, with no logic of their own.
- All `print` calls.
- The object that exists after an `__init__` has raised part-way. Python discards it. The one partial effect is the Groq key recorded before the check, and `ModelLoader.ValidateEnv` models that.

/**
 * `data_ingestion/ingestion_pipeline.py`: `DataIngestion` validates its credentials,
 * checks the review table's columns, and turns every row into one document whose body
 * is the review and whose metadata is the product's name, rating and summary.
 */
module Ingestion {
  import opened Wrappers
  import opened Environment
  import opened Config
  import opened Handles
  import ModelLoading

  /** The columns `_load_csv` insists on. */
  const EXPECTED_COLUMNS: set<string> := {"product_title", "rating", "summary", "review"}

  /** The metadata keys of every document `transform_data` builds. */
  const METADATA_KEYS: set<string> := {"product_name", "product_rating", "product_summary"}

  /**
   * The DataFrame `pd.read_csv` returns: its column names and its rows, each row
   * mapping column name to cell text.
   */
  datatype Table = Table(columns: set<string>, rows: seq<map<string, string>>)

  /** Every row of a DataFrame has exactly the frame's columns. */
  ghost predicate WellFormed(t: Table)
  {
    forall i :: 0 <= i < |t.rows| ==> t.rows[i].Keys == t.columns
  }

  datatype IngestionError =
    | EnvCheck(cause: EnvError)
    | CsvNotFound                                  // FileNotFoundError from _get_csv_path
    | MissingColumns(expected: set<string>)        // ValueError from _load_csv

  /**
   * `_load_csv`'s column check: the table is accepted iff it has every expected
   * column; extra columns are irrelevant.
   */
  function LoadCsv(table: Table): (r: Result<Table, IngestionError>)
    ensures r.Success? <==> EXPECTED_COLUMNS <= table.columns
    ensures r.Success? ==> r.value == table
    ensures r.Failure? ==> r.error == MissingColumns(EXPECTED_COLUMNS)
  {
    if !(EXPECTED_COLUMNS <= table.columns) then Failure(MissingColumns(EXPECTED_COLUMNS))
    else Success(table)
  }

  /** The `product_entry` dictionary that `transform_data`'s first loop builds from a row. */
  function ProductEntry(row: map<string, string>): (e: map<string, string>)
    requires EXPECTED_COLUMNS <= row.Keys
    ensures e.Keys == {"product_name", "product_rating", "product_summary", "product_review"}
    ensures e["product_name"] == row["product_title"]
    ensures e["product_rating"] == row["rating"]
    ensures e["product_summary"] == row["summary"]
    ensures e["product_review"] == row["review"]
  {
    map["product_name" := row["product_title"],
        "product_rating" := row["rating"],
        "product_summary" := row["summary"],
        "product_review" := row["review"]]
  }

  /**
   * The document `transform_data` builds from one row: the review is the body, the
   * other three columns, renamed, are the metadata, and the review is NOT in it.
   */
  function ToDocument(row: map<string, string>): (d: Document)
    requires EXPECTED_COLUMNS <= row.Keys
    ensures d.pageContent == row["review"]
    ensures d.metadata.Keys == METADATA_KEYS
    ensures "product_review" !in d.metadata
    ensures d.metadata["product_name"] == row["product_title"]
    ensures d.metadata["product_rating"] == row["rating"]
    ensures d.metadata["product_summary"] == row["summary"]
  {
    var entry := ProductEntry(row);
    Document(entry["product_review"],
             map["product_name" := entry["product_name"],
                 "product_rating" := entry["product_rating"],
                 "product_summary" := entry["product_summary"]])
  }

  /** The inverse renaming: the four source columns read back from a document. */
  function ToRow(d: Document): (row: map<string, string>)
    requires METADATA_KEYS <= d.metadata.Keys
    ensures row.Keys == EXPECTED_COLUMNS
  {
    map["product_title" := d.metadata["product_name"],
        "rating" := d.metadata["product_rating"],
        "summary" := d.metadata["product_summary"],
        "review" := d.pageContent]
  }

  /** No field is lost: the four expected columns of a row can be read back from its document. */
  lemma RowRoundTrip(row: map<string, string>)
    requires EXPECTED_COLUMNS <= row.Keys
    ensures ToRow(ToDocument(row)) == map c | c in EXPECTED_COLUMNS :: row[c]
  {
  }

  /** No field is invented: a document of this schema is the one built from its own row. */
  lemma DocumentRoundTrip(d: Document)
    requires d.metadata.Keys == METADATA_KEYS
    ensures ToDocument(ToRow(d)) == d
  {
  }

  class DataIngestion {
    const modelLoader: ModelLoading.ModelLoader
    var googleApiKey: Option<string>
    var dbApiEndpoint: Option<string>
    var dbApplicationToken: Option<string>
    var dbKeyspace: Option<string>
    var productData: Table
    var config: Config

    /** `__init__` once the ModelLoader is built: no other attribute assigned yet. */
    constructor (modelLoader: ModelLoading.ModelLoader)
      ensures this.modelLoader == modelLoader
      ensures googleApiKey == None && dbApiEndpoint == None
      ensures dbApplicationToken == None && dbKeyspace == None
      ensures productData == Table({}, []) && config == map[]
    {
      this.modelLoader := modelLoader;
      googleApiKey, dbApiEndpoint, dbApplicationToken, dbKeyspace := None, None, None, None;
      productData := Table({}, []);
      config := map[];
    }

    /** The state a successful `__init__` leaves: a DataFrame with the expected columns. */
    ghost predicate Valid()
      reads this
    {
      EXPECTED_COLUMNS <= productData.columns && WellFormed(productData)
    }

    /**
     * `_load_env_variables`: raises iff a required variable is not set (an empty
     * value counts as set); otherwise the four credential attributes hold exactly the
     * environment's values.
     */
    method LoadEnvVariables(env: Env) returns (o: Outcome<EnvError>)
      modifies this`googleApiKey, this`dbApiEndpoint, this`dbApplicationToken, this`dbKeyspace
      ensures o.Pass? <==> AstraMissingVars(env) == []
      ensures o.Fail? ==> o.error == MissingEnvironmentVariables(AstraMissingVars(env))
      ensures o.Fail? ==> unchanged(this)
      ensures o.Pass? ==>
                && googleApiKey == Some(env[GOOGLE_API_KEY])
                && dbApiEndpoint == Some(env[ASTRA_DB_API_ENDPOINT])
                && dbApplicationToken == Some(env[ASTRA_DB_APPLICATION_TOKEN])
                && dbKeyspace == Some(env[ASTRA_DB_KEYSPACE])
    {
      var missing := AstraMissingVars(env);
      o := RaiseIfMissing(missing);
      if o.Fail? {
        return;
      }
      googleApiKey := GetEnv(env, GOOGLE_API_KEY);
      dbApiEndpoint := GetEnv(env, ASTRA_DB_API_ENDPOINT);
      dbApplicationToken := GetEnv(env, ASTRA_DB_APPLICATION_TOKEN);
      dbKeyspace := GetEnv(env, ASTRA_DB_KEYSPACE);
    }

    /**
     * `transform_data`: one document per row, in row order, document i built from
     * row i by `ToDocument`.
     */
    method TransformData() returns (documents: seq<Document>)
      requires Valid()
      ensures |documents| == |productData.rows|
      ensures forall i :: 0 <= i < |documents| ==> documents[i] == ToDocument(productData.rows[i])
    {
      var rows := productData.rows;
      var productList: seq<map<string, string>> := [];
      for i := 0 to |rows|
        invariant |productList| == i
        invariant forall j :: 0 <= j < i ==> productList[j] == ProductEntry(rows[j])
      {
        var row := rows[i];
        var productEntry := map["product_name" := row["product_title"],
                                "product_rating" := row["rating"],
                                "product_summary" := row["summary"],
                                "product_review" := row["review"]];
        productList := productList + [productEntry];
      }
      documents := [];
      for i := 0 to |productList|
        invariant |documents| == i
        invariant forall j :: 0 <= j < i ==> documents[j] == ToDocument(rows[j])
      {
        var entry := productList[i];
        var metadata := map["product_name" := entry["product_name"],
                            "product_rating" := entry["product_rating"],
                            "product_summary" := entry["product_summary"]];
        documents := documents + [Document(entry["product_review"], metadata)];
      }
    }
  }

  /**
   * `DataIngestion()`: builds the ModelLoader (absent-or-empty check on the Google and
   * Groq keys), checks the AstraDB variables (absence only), locates the CSV
   * (`csv == None` when the file does not exist), checks its columns and stores the
   * config. The first failing step decides the error.
   */
  method NewDataIngestion(env: Env, config: Config, csv: Option<Table>) returns (r: Result<DataIngestion, IngestionError>)
    requires csv.Some? ==> WellFormed(csv.value)
    ensures r.Success? <==> ModelLoading.MissingVars(env) == [] && AstraMissingVars(env) == []
                            && csv.Some? && EXPECTED_COLUMNS <= csv.value.columns
    ensures ModelLoading.MissingVars(env) != [] ==>
              r == Failure(EnvCheck(MissingEnvironmentVariables(ModelLoading.MissingVars(env))))
    ensures ModelLoading.MissingVars(env) == [] && AstraMissingVars(env) != [] ==>
              r == Failure(EnvCheck(MissingEnvironmentVariables(AstraMissingVars(env))))
    ensures ModelLoading.MissingVars(env) == [] && AstraMissingVars(env) == [] && csv == None ==>
              r == Failure(CsvNotFound)
    ensures ModelLoading.MissingVars(env) == [] && AstraMissingVars(env) == [] && csv.Some?
            && !(EXPECTED_COLUMNS <= csv.value.columns) ==>
              r == Failure(MissingColumns(EXPECTED_COLUMNS))
    ensures r.Success? ==> fresh(r.value) && fresh(r.value.modelLoader) && r.value.Valid()
    ensures r.Success? ==>
              && r.value.modelLoader.config == config
              && r.value.modelLoader.groqApiKey == Some(env[ModelLoading.GROQ_API_KEY])
    ensures r.Success? ==> r.value.productData == csv.value && r.value.config == config
    ensures r.Success? ==>
              && r.value.googleApiKey == Some(env[GOOGLE_API_KEY])
              && r.value.dbApiEndpoint == Some(env[ASTRA_DB_API_ENDPOINT])
              && r.value.dbApplicationToken == Some(env[ASTRA_DB_APPLICATION_TOKEN])
              && r.value.dbKeyspace == Some(env[ASTRA_DB_KEYSPACE])
  {
    var loader := ModelLoading.NewModelLoader(env, config);
    if loader.Failure? {
      return Failure(EnvCheck(loader.error));
    }
    var ingestion := new DataIngestion(loader.value);
    var o := ingestion.LoadEnvVariables(env);
    if o.Fail? {
      return Failure(EnvCheck(o.error));
    }
    assert GOOGLE_API_KEY in env && ASTRA_DB_API_ENDPOINT in env
           && ASTRA_DB_APPLICATION_TOKEN in env && ASTRA_DB_KEYSPACE in env;
    if csv.None? {
      return Failure(CsvNotFound);
    }
    var table := LoadCsv(csv.value);
    if table.Failure? {
      return Failure(table.error);
    }
    ingestion.productData := table.value;
    ingestion.config := config;
    r := Success(ingestion);
  }
}

/**
 * Opaque stand-ins for the library objects the core builds and passes around:
 * LangChain documents, the Google embedding model, the Groq chat model, the AstraDB
 * vector store and the retriever view of it. Each records only the arguments it was
 * constructed with; none of their remote behaviour is modelled.
 */
module Handles {
  import opened Wrappers
  import opened Config

  /** `langchain_core.documents.Document(page_content=..., metadata=...)`. */
  datatype Document = Document(pageContent: string, metadata: map<string, string>)

  /** `GoogleGenerativeAIEmbeddings(model=...)`. */
  datatype Embedder = GoogleGenerativeAIEmbeddings(model: Yaml)

  /** `ChatGroq(model=..., api_key=...)`. */
  datatype ChatModel = ChatGroq(model: Yaml, apiKey: Option<string>)

  /** `AstraDBVectorStore(embedding=..., collection_name=..., api_endpoint=..., token=..., namespace=...)`. */
  class AstraDBVectorStore {
    const embedding: Embedder
    const collectionName: Yaml
    const apiEndpoint: Option<string>
    const token: Option<string>
    const namespace: Option<string>

    constructor (embedding: Embedder, collectionName: Yaml, apiEndpoint: Option<string>,
                 token: Option<string>, namespace: Option<string>)
      ensures this.embedding == embedding && this.collectionName == collectionName
      ensures this.apiEndpoint == apiEndpoint && this.token == token && this.namespace == namespace
    {
      this.embedding := embedding;
      this.collectionName := collectionName;
      this.apiEndpoint := apiEndpoint;
      this.token := token;
      this.namespace := namespace;
    }
  }

  /** `vstore.as_retriever(search_kwargs={"k": k})`. */
  class VectorStoreRetriever {
    const vectorstore: AstraDBVectorStore
    const k: Yaml

    constructor (vectorstore: AstraDBVectorStore, k: Yaml)
      ensures this.vectorstore == vectorstore && this.k == k
    {
      this.vectorstore := vectorstore;
      this.k := k;
    }
  }

  /**
   * The remote similarity search behind `retriever.invoke(query)`: given the store,
   * the result count `k` and the query text, the documents it returns.
   */
  type Search = (AstraDBVectorStore, Yaml, string) -> seq<Document>
}

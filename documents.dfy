/** The values that flow between ingestion and retrieval: LangChain documents, the splitter's
    parameters, a FAISS index (opaque) and a retriever over it. */
module Documents {

  /** A LangChain `Document`: `page_content` and the `source` entry of its metadata. */
  datatype Document = Document(pageContent: string, source: string)

  /** `RecursiveCharacterTextSplitter(chunk_size=..., chunk_overlap=...)` */
  datatype Splitter = Splitter(chunkSize: nat, chunkOverlap: nat)

  /** A FAISS vector store, built or loaded by the library; the model does not look inside. */
  datatype VectorIndex = VectorIndex(handle: nat)

  /** `vectorstore.as_retriever(search_type="similarity", search_kwargs={"k": k})` */
  datatype Retriever = SimilarityRetriever(index: VectorIndex, k: nat)

  /** Both the ingestor and the chat pipeline ask for the five most similar chunks. */
  const TopK: nat := 5
}

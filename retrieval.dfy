/** `ConversationalRAG` (src/multi_document_chat/retrieval.py): a chain that rewrites the question
    from the chat history, retrieves documents for the rewritten question, joins them into a
    context and answers from the context, the original input and the history. The LLM and the
    vector search are parameters. */
module Retrieval {
  import opened Wrappers
  import opened Failures
  import opened Text
  import opened Documents
  import ModelLoading

  datatype Role = Human | Ai
  datatype Message = Message(role: Role, content: string)

  /** A value fed into a prompt variable: text, or a list of chat messages. */
  datatype Slot = TextSlot(text: string) | HistorySlot(messages: seq<Message>)

  /** The mapping the chain is invoked with. */
  type Inputs = map<string, Slot>

  const InputKey := "input"
  const HistoryKey := "chat_history"
  const ContextKey := "context"

  /** The two prompt-registry entries the chain uses. */
  datatype PromptName = ContextualizeQuestion | ContextQa

  /** A prompt template with the variables it is filled with: what the LLM is sent. */
  datatype PromptValue = PromptValue(template: PromptName, variables: map<string, Slot>)

  /** The LLM followed by the string output parser: the reply's text, or what the call raised. */
  type Complete = (ModelLoading.ChatModel, PromptValue) -> Result<string, Failure>

  /** The answer stage: the LLM on the question-answering prompt, giving the response mapping
      `invoke` reads its `answer` from, or what the call raised. */
  type Respond = (ModelLoading.ChatModel, PromptValue) -> Result<map<string, string>, Failure>

  /** `retriever.invoke(query)`: the documents FAISS returns, or what it raised. */
  type Search = (Retriever, string) -> Result<seq<Document>, Failure>

  /** The chain `_build_lcel_chain` assembles, by the components it closes over. */
  datatype Chain = Chain(llm: ModelLoading.ChatModel, retriever: Retriever)

  function BuildChain(llm: ModelLoading.ChatModel, retriever: Retriever): (c: Chain)
    ensures c.llm == llm && c.retriever == retriever
  {
    Chain(llm, retriever)
  }

  /** `_format_documents`: the documents' page contents, in order, separated by a blank line. */
  function FormatDocuments(docs: seq<Document>): string
  {
    Join("\n\n", PageContents(docs))
  }

  function PageContents(docs: seq<Document>): (cs: seq<string>)
    ensures |cs| == |docs| && forall i :: 0 <= i < |docs| ==> cs[i] == docs[i].pageContent
  {
    seq(|docs|, i requires 0 <= i < |docs| => docs[i].pageContent)
  }

  /** No documents give an empty context and one document gives its own content. */
  lemma FormatFew(d: Document)
    ensures FormatDocuments([]) == ""
    ensures FormatDocuments([d]) == d.pageContent
  {
    assert PageContents([d]) == [d.pageContent];
  }

  /** One more document adds a blank line and its content at the end. */
  lemma FormatAppend(docs: seq<Document>, d: Document)
    requires docs != []
    ensures FormatDocuments(docs + [d]) == FormatDocuments(docs) + "\n\n" + d.pageContent
  {
    assert PageContents(docs + [d]) == PageContents(docs) + [d.pageContent];
    JoinAppend("\n\n", PageContents(docs), d.pageContent);
  }

  /** Every document's content appears whole, in order, at the offset its predecessors and their
      separators take up, and a blank line separates it from the next one. */
  lemma FormatPlacesEachDocument(docs: seq<Document>, k: nat)
    requires k < |docs|
    ensures var start := Span("\n\n", PageContents(docs)[..k]);
      start + |docs[k].pageContent| <= |FormatDocuments(docs)| &&
      FormatDocuments(docs)[start..start + |docs[k].pageContent|] == docs[k].pageContent &&
      (k + 1 < |docs| ==>
        start + |docs[k].pageContent| + 2 <= |FormatDocuments(docs)| &&
        FormatDocuments(docs)[start + |docs[k].pageContent|..start + |docs[k].pageContent| + 2] == "\n\n")
  {
    JoinPartAt("\n\n", PageContents(docs), k);
  }

  /** Stage 1 input: the contextualize prompt filled with `input` and `chat_history` only. */
  function RewritePrompt(inputs: Inputs): (p: PromptValue)
    requires InputKey in inputs && HistoryKey in inputs
    ensures p.template == ContextualizeQuestion && p.variables.Keys == {InputKey, HistoryKey}
    ensures p.variables[InputKey] == inputs[InputKey] && p.variables[HistoryKey] == inputs[HistoryKey]
  {
    PromptValue(ContextualizeQuestion, map[InputKey := inputs[InputKey], HistoryKey := inputs[HistoryKey]])
  }

  /** Stage 3 input: the question-answering prompt filled with the joined context, the original
      input and the history. */
  function AnswerPrompt(context: string, inputs: Inputs): (p: PromptValue)
    requires InputKey in inputs && HistoryKey in inputs
    ensures p.template == ContextQa && p.variables.Keys == {ContextKey, InputKey, HistoryKey}
    ensures p.variables[ContextKey] == TextSlot(context)
    ensures p.variables[InputKey] == inputs[InputKey] && p.variables[HistoryKey] == inputs[HistoryKey]
  {
    PromptValue(ContextQa, map[ContextKey := TextSlot(context), InputKey := inputs[InputKey], HistoryKey := inputs[HistoryKey]])
  }

  /** What one run of the chain went through, stage by stage. */
  datatype Trace = Trace(rewritten: string, retrieved: seq<Document>, context: string, response: map<string, string>)

  /** Running the chain on `inputs`. A missing `input` or `chat_history` raises `KeyError` from
      its `itemgetter`; any stage that raises ends the run with that error. */
  function RunChain(chain: Chain, complete: Complete, respond: Respond, search: Search, inputs: Inputs): Result<Trace, Failure>
  {
    if InputKey !in inputs then Failure(KeyError(InputKey))
    else if HistoryKey !in inputs then Failure(KeyError(HistoryKey))
    else
      match complete(chain.llm, RewritePrompt(inputs))
      case Failure(e) => Failure(e)
      case Success(question) =>
        match search(chain.retriever, question)
        case Failure(e) => Failure(e)
        case Success(docs) =>
          var context := FormatDocuments(docs);
          match respond(chain.llm, AnswerPrompt(context, inputs))
          case Failure(e) => Failure(e)
          case Success(response) => Success(Trace(question, docs, context, response))
  }

  /** A successful run asks the LLM to rewrite the question, searches with exactly what it
      wrote, joins the documents found, and answers from that context and the original input. */
  lemma RunChainStages(chain: Chain, complete: Complete, respond: Respond, search: Search, inputs: Inputs)
    requires RunChain(chain, complete, respond, search, inputs).Success?
    ensures var t := RunChain(chain, complete, respond, search, inputs).value;
      InputKey in inputs && HistoryKey in inputs &&
      complete(chain.llm, RewritePrompt(inputs)) == Success(t.rewritten) &&
      search(chain.retriever, t.rewritten) == Success(t.retrieved) &&
      t.context == FormatDocuments(t.retrieved) &&
      respond(chain.llm, AnswerPrompt(t.context, inputs)) == Success(t.response)
  {
  }

  /** The run fails exactly when a key is missing or a stage raises, and then with the error of
      the first stage that did. */
  lemma RunChainFailures(chain: Chain, complete: Complete, respond: Respond, search: Search, inputs: Inputs)
    requires InputKey in inputs && HistoryKey in inputs
    ensures var r := RunChain(chain, complete, respond, search, inputs);
      var q := complete(chain.llm, RewritePrompt(inputs));
      (q.Failure? ==> r == Failure(q.error)) &&
      (q.Success? && search(chain.retriever, q.value).Failure? ==>
        r == Failure(search(chain.retriever, q.value).error)) &&
      (q.Success? && search(chain.retriever, q.value).Success? ==>
        var a := respond(chain.llm, AnswerPrompt(FormatDocuments(search(chain.retriever, q.value).value), inputs));
        r.Success? <==> a.Success?)
  {
  }

  /** Only `input` and `chat_history` are read: other entries of the mapping change nothing. */
  lemma {:induction false} RunChainReadsOnlyInputAndHistory(chain: Chain, complete: Complete, respond: Respond, search: Search, a: Inputs, b: Inputs)
    requires InputKey in a <==> InputKey in b
    requires HistoryKey in a <==> HistoryKey in b
    requires InputKey in a ==> a[InputKey] == b[InputKey]
    requires HistoryKey in a ==> a[HistoryKey] == b[HistoryKey]
    ensures RunChain(chain, complete, respond, search, a) == RunChain(chain, complete, respond, search, b)
  {
    if InputKey in a && HistoryKey in a {
      assert RewritePrompt(a) == RewritePrompt(b);
      forall context: string ensures AnswerPrompt(context, a) == AnswerPrompt(context, b) {
      }
    }
  }

  /** Retrieval sees the rewritten question and nothing else: two runs whose rewrites agree
      retrieve the same documents and build the same context, however their raw inputs differ. */
  lemma RetrievalUsesRewrittenQuestion(chain: Chain, complete: Complete, respond: Respond, search: Search, a: Inputs, b: Inputs)
    requires RunChain(chain, complete, respond, search, a).Success? && RunChain(chain, complete, respond, search, b).Success?
    requires RunChain(chain, complete, respond, search, a).value.rewritten == RunChain(chain, complete, respond, search, b).value.rewritten
    ensures RunChain(chain, complete, respond, search, a).value.retrieved == RunChain(chain, complete, respond, search, b).value.retrieved
    ensures RunChain(chain, complete, respond, search, a).value.context == RunChain(chain, complete, respond, search, b).value.context
  {
    RunChainStages(chain, complete, respond, search, a);
    RunChainStages(chain, complete, respond, search, b);
  }

  /** When the rewrite fails, the search is never consulted. */
  lemma RewriteFailureSkipsSearch(chain: Chain, complete: Complete, respond: Respond, s1: Search, s2: Search, inputs: Inputs)
    requires InputKey in inputs && HistoryKey in inputs
    requires complete(chain.llm, RewritePrompt(inputs)).Failure?
    ensures RunChain(chain, complete, respond, s1, inputs) == RunChain(chain, complete, respond, s2, inputs)
      == Failure(complete(chain.llm, RewritePrompt(inputs)).error)
  {
  }

  /** `response.get("answer", "No answer")` */
  function AnswerOf(response: map<string, string>): (answer: string)
    ensures "answer" in response ==> answer == response["answer"]
    ensures "answer" !in response ==> answer == "No answer"
  {
    if "answer" in response then response["answer"] else "No answer"
  }

  /** The LLM as `ModelLoader().load_llm()` gives it: constructing the loader validates the
      environment and reads the configuration first. */
  function LlmFor(env: ModelLoading.Env, loadedConfig: Result<ModelLoading.Value, Failure>, lib: ModelLoading.Constructors)
    : (r: Result<ModelLoading.ChatModel, Failure>)
    ensures r.Success? <==>
      ModelLoading.NewModelLoader(env, loadedConfig).Success? &&
      ModelLoading.LoadLlm(loadedConfig.value, env, lib).Success?
    ensures r.Success? ==> r == ModelLoading.LoadLlm(loadedConfig.value, env, lib)
  {
    match ModelLoading.NewModelLoader(env, loadedConfig)
    case Failure(e) => Failure(e)
    case Success(loader) => ModelLoading.LoadLlm(loader.config, env, lib)
  }

  /** The embeddings as `ModelLoader().load_embeddings()` gives them. */
  function EmbeddingsFor(env: ModelLoading.Env, loadedConfig: Result<ModelLoading.Value, Failure>, lib: ModelLoading.Constructors)
    : (r: Result<ModelLoading.Embeddings, Failure>)
    ensures r.Success? <==>
      ModelLoading.NewModelLoader(env, loadedConfig).Success? &&
      ModelLoading.LoadEmbeddings(loadedConfig.value, lib).Success?
    ensures r.Success? ==> r == ModelLoading.LoadEmbeddings(loadedConfig.value, lib)
  {
    match ModelLoading.NewModelLoader(env, loadedConfig)
    case Failure(e) => Failure(e)
    case Success(loader) => ModelLoading.LoadEmbeddings(loader.config, lib)
  }

  const InitError := "Error in initializing ConversationalRAG."
  const LoadError := "Error laoding retriever from FAISS"
  const InvokeError := "Failed to invoke conversational RAG."
  const BuildError := "Failed to build lcel chain."

  /** `PROMPT_REGISTRY[...]`: what looking a prompt up raises (`None` when the registry holds it). */
  type Lookup = PromptName -> Option<Failure>

  /** The registry holds both prompts the chain uses. */
  predicate PromptsFound(lookup: Lookup)
  {
    lookup(ContextualizeQuestion).None? && lookup(ContextQa).None?
  }

  class ConversationalRAG {
    var sessionId: string
    var llm: ModelLoading.ChatModel
    var retriever: Retriever
    var chain: Chain

    /** The chain is the one built from the current LLM and retriever. */
    predicate Valid()
      reads this
    {
      chain == BuildChain(llm, retriever)
    }

    constructor (sessionId: string, llm: ModelLoading.ChatModel, retriever: Retriever)
      ensures Valid()
      ensures this.sessionId == sessionId && this.llm == llm && this.retriever == retriever
    {
      this.sessionId := sessionId;
      this.llm := llm;
      this.retriever := retriever;
      chain := BuildChain(llm, retriever);
    }

    /** `__init__`: load the LLM (re-raised as "Failed to load LLM."), look up the two prompts,
        reject a missing retriever, and build the chain (`build` is what `_build_lcel_chain`
        raises, re-raised as "Failed to build lcel chain."); every failure is re-raised as
        "Error in initializing ConversationalRAG.". */
    static method Create(sessionId: string, env: ModelLoading.Env, loadedConfig: Result<ModelLoading.Value, Failure>,
                         lookup: Lookup, retriever: Option<Retriever>, build: Option<Failure>, lib: ModelLoading.Constructors)
      returns (r: Result<ConversationalRAG, Failure>)
      ensures r.Success? <==>
        LlmFor(env, loadedConfig, lib).Success? && PromptsFound(lookup) && retriever.Some? && build.None?
      ensures LlmFor(env, loadedConfig, lib).Failure? ==>
        r == Failure(Wrap(InitError, Wrap("Failed to load LLM.", LlmFor(env, loadedConfig, lib).error)))
      ensures LlmFor(env, loadedConfig, lib).Success? && lookup(ContextualizeQuestion).Some? ==>
        r == Failure(Wrap(InitError, lookup(ContextualizeQuestion).value))
      ensures LlmFor(env, loadedConfig, lib).Success? && lookup(ContextualizeQuestion).None? && lookup(ContextQa).Some? ==>
        r == Failure(Wrap(InitError, lookup(ContextQa).value))
      ensures LlmFor(env, loadedConfig, lib).Success? && PromptsFound(lookup) && retriever.None? ==>
        r == Failure(Wrap(InitError, ValueError("Retriever can not be None")))
      ensures LlmFor(env, loadedConfig, lib).Success? && PromptsFound(lookup) && retriever.Some? && build.Some? ==>
        r == Failure(Wrap(InitError, Wrap(BuildError, build.value)))
      ensures r.Success? ==>
        fresh(r.value) && r.value.Valid() && r.value.sessionId == sessionId && r.value.llm == LlmFor(env, loadedConfig, lib).value && r.value.retriever == retriever.value
    {
      var llm := LlmFor(env, loadedConfig, lib);
      if llm.Failure? {
        return Failure(Wrap(InitError, Wrap("Failed to load LLM.", llm.error)));
      }
      if lookup(ContextualizeQuestion).Some? {
        return Failure(Wrap(InitError, lookup(ContextualizeQuestion).value));
      }
      if lookup(ContextQa).Some? {
        return Failure(Wrap(InitError, lookup(ContextQa).value));
      }
      if retriever.None? {
        return Failure(Wrap(InitError, ValueError("Retriever can not be None")));
      }
      if build.Some? {
        return Failure(Wrap(InitError, Wrap(BuildError, build.value)));
      }
      var rag := new ConversationalRAG(sessionId, llm.value, retriever.value);
      return Success(rag);
    }

    /** `load_retriever_from_faiss`: load the embeddings, check that the index folder exists,
        load the index and search it for the 5 most similar chunks; the new retriever replaces
        the old one and the chain is rebuilt over it (`build` is what `_build_lcel_chain` raises).
        A failure before the index is loaded changes nothing; a failed rebuild leaves the new
        retriever in place beside the old chain. */
    method LoadRetrieverFromFaiss(indexPath: string, env: ModelLoading.Env, loadedConfig: Result<ModelLoading.Value, Failure>,
                                  isDir: bool, loadLocal: (string, ModelLoading.Embeddings) -> Result<VectorIndex, Failure>,
                                  build: Option<Failure>, lib: ModelLoading.Constructors)
      returns (r: Result<Retriever, Failure>)
      modifies this
      ensures sessionId == old(sessionId) && llm == old(llm)
      ensures EmbeddingsFor(env, loadedConfig, lib).Failure? ==>
        r == Failure(Wrap(LoadError, EmbeddingsFor(env, loadedConfig, lib).error)) &&
        retriever == old(retriever) && chain == old(chain)
      ensures EmbeddingsFor(env, loadedConfig, lib).Success? && !isDir ==>
        r == Failure(Wrap(LoadError, FileNotFoundError(indexPath))) &&
        retriever == old(retriever) && chain == old(chain)
      ensures EmbeddingsFor(env, loadedConfig, lib).Success? && isDir ==>
        var loaded := loadLocal(indexPath, EmbeddingsFor(env, loadedConfig, lib).value);
        (loaded.Failure? ==>
          r == Failure(Wrap(LoadError, loaded.error)) && retriever == old(retriever) && chain == old(chain)) &&
        (loaded.Success? ==> retriever == SimilarityRetriever(loaded.value, TopK)) &&
        (loaded.Success? && build.None? ==> r == Success(retriever) && chain == BuildChain(llm, retriever)) &&
        (loaded.Success? && build.Some? ==>
          r == Failure(Wrap(LoadError, Wrap(BuildError, build.value))) && chain == old(chain))
      ensures r.Success? ==> Valid()
      ensures old(Valid()) && retriever == old(retriever) ==> Valid()
    {
      var embeddings := EmbeddingsFor(env, loadedConfig, lib);
      if embeddings.Failure? {
        return Failure(Wrap(LoadError, embeddings.error));
      }
      if !isDir {
        return Failure(Wrap(LoadError, FileNotFoundError(indexPath)));
      }
      var vectorstore := loadLocal(indexPath, embeddings.value);
      if vectorstore.Failure? {
        return Failure(Wrap(LoadError, vectorstore.error));
      }
      retriever := SimilarityRetriever(vectorstore.value, TopK);
      if build.Some? {
        return Failure(Wrap(LoadError, Wrap(BuildError, build.value)));
      }
      chain := BuildChain(llm, retriever);
      return Success(retriever);
    }

    /** `invoke`: run the chain on the user's input and the chat history and return the
        response's answer, or "No answer" when the response has none. An empty answer is
        returned unchanged, with a warning; a failing run is re-raised as "Failed to invoke
        conversational RAG.". The chain run is the one last built: after a failed rebuild it
        still searches the previous retriever. */
    method Invoke(userInput: string, history: seq<Message>, complete: Complete, respond: Respond, search: Search)
      returns (r: Result<string, Failure>, warned: bool)
      ensures var run := RunChain(chain, complete, respond, search, ChainInputs(userInput, history));
        && (r.Failure? <==> run.Failure?)
        && (run.Failure? ==> r == Failure(Wrap(InvokeError, run.error)))
        && (run.Success? && "answer" in run.value.response ==> r == Success(run.value.response["answer"]))
        && (run.Success? && "answer" !in run.value.response ==> r == Success("No answer"))
      ensures warned <==> r == Success("")
    {
      var response := RunChain(chain, complete, respond, search, ChainInputs(userInput, history));
      if response.Failure? {
        return Failure(Wrap(InvokeError, response.error)), false;
      }
      var answer := AnswerOf(response.value.response);
      warned := answer == "";
      r := Success(answer);
    }
  }

  /** The mapping `invoke` hands to the chain. */
  function ChainInputs(userInput: string, history: seq<Message>): (inputs: Inputs)
    ensures inputs.Keys == {InputKey, HistoryKey}
    ensures inputs[InputKey] == TextSlot(userInput) && inputs[HistoryKey] == HistorySlot(history)
  {
    map[InputKey := TextSlot(userInput), HistoryKey := HistorySlot(history)]
  }
}

# document_portal core, modelled in Dafny

Document Portal is a Python application. It ingests uploaded documents and answers questions
about them with retrieval-augmented generation (RAG): an LLM writes the answer from passages a
vector index finds. This project models the application's deterministic core and proves
properties of it:

- **`DocumentPortalException`** (`portal_exception.dfy`). The error the whole portal raises:
  - where it happened, taken from the innermost traceback frame;
  - the text of `__str__`;
  - `__repr__`, which is proved to read back into its file, line and message.
  - Python's `repr` of a string is modelled in `python_repr.dfy`.
- **`ModelLoader`** (`model_loading.dfy`):
  - validation of the two required API keys;
  - the embedding model's name;
  - the choice of chat model from `LLM_PROVIDER` and the `llm` block of the YAML configuration, with its defaults and its two `ValueError`s.
- **`DocumentHandler`** of the document analyser (`document_analysis.dfy`):
  - the session folder;
  - the PDF-only save;
  - the page-labelled text `read_pdf` builds.
- **`DocumentIngestor`** of multi-document chat (`multi_doc_ingestion.dfy`):
  - filtering uploads by extension;
  - saving each kept upload under a fresh eight-hex-digit name;
  - choosing a loader per extension;
  - gathering the loaded documents in order, stopping at the first failure;
  - building the retriever (chunks of 1000 with overlap 300, top 5).
- **`ConversationalRAG`** (`retrieval.py`, modelled in `retrieval.dfy`). The chain runs three stages:
  1. Rewrite the question from the chat history.
  2. Retrieve documents for the rewritten question and join them with blank lines.
  3. Answer from that context, the original input and the history.

  Also modelled: loading a FAISS retriever from disk, and `invoke`.

Supporting modules:

- `sessions.dfy`: session ids `session_<UTC %Y%m%d_%H%M%S>_<8 hex>`.
- `paths.dfy`: `os.path.join`, `Path.name` and `Path.suffix`.
- `text.dfy`: `str.join`, ASCII `lower`, decimal rendering.
- `gathering.dfy`: a generic "first failure wins" concatenation.
- `documents.dfy`, `failures.dfy`, `wrappers.dfy`: the shared data types.

Libraries and the outside world become inputs of the model:

- the clock reading and the `uuid4` digits;
- the environment and the loaded configuration;
- the document loaders;
- FAISS building, saving and loading;
- the LLM call and the vector search;
- file writes and `os.path.isdir`.

A re-raised exception is `Wrap(message, cause)`: a `PortalError` carrying the message and the
exception it was raised from.

## Model

| member | source | states |
|---|---|---|
| PortalException.Frames | exception/custom_exception.py:37-39 | the chain of `tb_next` links starts at the given entry, each entry links to the next, and the last has no successor |
| PortalException.LastFrame | exception/custom_exception.py:36-39 | walking `tb_next` from a traceback ends at the last entry of its chain; no traceback gives none |
| PortalException.ResolveDetails | exception/custom_exception.py:22-34 | definition: no details, `sys`, or an object that is neither, give the current `exc_info()`; an object with `exc_info` gives what that returns; an exception gives its own type, itself and its traceback. Its consequences are stated by the constructor |
| PortalException.DocumentPortalException.constructor | exception/custom_exception.py:15-49 | file and line come from the innermost frame of the resolved traceback, or are `<unknown>` and -1 without one; the traceback text is set exactly when both type and traceback are present |
| PortalException.DocumentPortalException.Str | exception/custom_exception.py:55-64 | definition: `__str__` over the exception's fields; its format is stated by StrOf |
| PortalException.DocumentPortalException.Repr | exception/custom_exception.py:66-72 | definition: `__repr__` over the exception's fields; it reads back by ReprRoundTrip |
| PortalException.Headline | exception/custom_exception.py:61 | definition of the `Error in [file] at line [n] \| Message: m` line; StrOf states how `__str__` is built from it |
| PortalException.StrOf | exception/custom_exception.py:55-64 | `__str__` starts with the headline. It equals the headline exactly when there is no traceback text. Otherwise it ends with `\nTraceback:\n` and the traceback, and its length is exactly the headline, that header and the traceback: nothing else sits between them |
| PortalException.ReprOf | exception/custom_exception.py:72 | definition of the `DocumentPortalException(file=…, line=…, message=…)` text; ReprRoundTrip proves it unambiguous |
| PortalException.ReprRoundTrip | exception/custom_exception.py:66-72 | `__repr__` is unambiguous: parsing it gives back the file, line and message, whatever quotes or backslashes they contain |
| PortalException.ParseMessageRendered | exception/custom_exception.py:72 | the `, message=<repr>)` tail of `__repr__` reads back to its message |
| PortalException.ParseLineAndMessageRendered | exception/custom_exception.py:72 | the `, line=<n>` field reads back to its line number, negative ones included, and parsing continues after it |
| PortalException.ReadIntRendered | exception/custom_exception.py:42 | a line number rendered by `str(int)` (including -1) and followed by a non-digit reads back exactly |
| PortalException.ReadNonNegativeRendered | exception/custom_exception.py:42 | a non-negative line number reads back from its decimal text |
| PortalException.ReadNegativeRendered | exception/custom_exception.py:42 | a negative line number reads back from `-` followed by its digits |
| PortalException.ReadDigitsRendered | exception/custom_exception.py:42 | reading the digits of a rendered number stops at the first non-digit and gives the number back |
| PortalException.LeadingDigits | exception/custom_exception.py:72 | the counted prefix is within the text and made of digits only |
| PortalException.LeadingDigitsOf | exception/custom_exception.py:72 | a digit string followed by a non-digit has exactly its own length of leading digits |
| PortalException.StripPrefixOf | exception/custom_exception.py:72 | stripping a fixed field name from the text it starts gives back the rest |
| PythonRepr.Repr | exception/custom_exception.py:72 | definition of `!r` on a string: the quote Python picks and the escaped body; ReprReadsBack proves it reads back |
| PythonRepr.ReprReadsBack | exception/custom_exception.py:72 | a string's `!r` rendering, followed by anything, reads back to that string and the rest |
| PythonRepr.ReadBodyEscaped | exception/custom_exception.py:72 | an escaped body followed by its closing quote reads back to the original text |
| PythonRepr.EscapeCharReads | exception/custom_exception.py:72 | each escaped character reads back as itself |
| ModelLoading.ApiKeys | utils/model_loader.py:32-35 | `api_keys` has exactly the two required names as keys |
| ModelLoading.Unset | utils/model_loader.py:37 | the names kept are exactly the given names whose variable is absent or empty |
| ModelLoading.MissingVars | utils/model_loader.py:32-37 | `missing_vars` lists exactly the unset required keys, `GROQ_API_KEY` first |
| ModelLoading.ValidateEnv | utils/model_loader.py:29-41 | fails exactly when either key is absent or empty, with "Missing required environment variables."; on success every key holds a non-empty value |
| ModelLoading.NewModelLoader | utils/model_loader.py:22-26 | construction succeeds exactly when both keys are set and the configuration loads; a missing key wins over a configuration failure; the loader keeps the configuration and the keys |
| ModelLoading.HasEmbeddingName | utils/model_loader.py:48 | definition: the configuration has `embedding_model.model_name`; used in LoadEmbeddings' contract |
| ModelLoading.EmbeddingName | utils/model_loader.py:48 | definition: the value at `embedding_model.model_name`; used in LoadEmbeddings' contract |
| ModelLoading.LoadEmbeddings | utils/model_loader.py:44-52 | succeeds exactly when `embedding_model.model_name` exists and the embeddings class accepts that name, and then uses it as the model. A failed lookup and a refusing class both become "Failed to load embeddings" |
| ModelLoading.ProviderKey | utils/model_loader.py:60 | definition of `os.getenv("LLM_PROVIDER", "groq")`; LoadLlm's contract is stated through it |
| ModelLoading.KnownProvider | utils/model_loader.py:61-87 | definition: the provider key names an entry whose `provider` is google or groq; LoadLlm's contract is stated through it |
| ModelLoading.Requested | utils/model_loader.py:65-87 | definition: the chat model such an entry asks for, with the defaults filled in; LoadLlm's contract is stated through it |
| ModelLoading.Construct | utils/model_loader.py:73-87 | definition: instantiating the chat class gives the model or what the class raised; its effect is stated by LoadLlm |
| ModelLoading.ProviderBlock | utils/model_loader.py:61-65 | the `in` test and the subscript of the `llm` block: succeeds exactly when the block is a mapping holding the key, giving its entry. A mapping without the key, or a string not containing it, gives "LLM Provider … not found in config"; a string containing it gives the `TypeError` of subscripting a string; any other value gives `in`'s "argument of type … is not iterable" |
| ModelLoading.LoadLlm | utils/model_loader.py:55-98 | succeeds exactly when the provider key names an entry whose `provider` is google or groq and the chat class accepts the arguments. The model gets `model_name`, `temperature` (default 0.2) and `max_tokens` (default 2048). A key missing from a mapping block gives "LLM Provider … not found in config". On a string block, `in` is a substring test: a key that does not occur in the string gives the same `ValueError`, and one that does gives the `TypeError` of subscripting a string. Any other provider gives "Unsupported LLM provider: …". What the chat class raises is passed on unwrapped |
| ModelLoading.StringLlmBlockWithoutKey | utils/model_loader.py:57-63 | with `LLM_PROVIDER` unset, a string `llm` block without a `g` (such as "openai") gives "LLM Provider groq not found in config" |
| ModelLoading.StringLlmBlockWithKey | utils/model_loader.py:57-65 | a string `llm` block that holds "groq" passes the `in` test, and subscripting it raises `TypeError` |
| ModelLoading.TypeName | utils/model_loader.py:61 | definition of `type(v).__name__`, used in the `TypeError` that `in` raises on a block that is neither a mapping nor a string; ProviderBlock and LoadLlm state its use |
| Sessions.Strftime | src/multi_document_chat/data_ingestion.py:32 | `%Y%m%d_%H%M%S` is 15 characters: eight digits, `_`, six digits |
| Sessions.StrftimeInjective | src/multi_document_chat/data_ingestion.py:32 | different clock readings give different stamps |
| Sessions.ShortHex | src/multi_document_chat/data_ingestion.py:60 | `uuid4().hex[:8]` is eight characters with no dot, slash or underscore |
| Sessions.NewSessionId | src/document_analyzer/data_ingestion.py:17 | definition of `session_<stamp>_<8 hex>`; its length and injectivity are stated by NewSessionIdsDistinct |
| Sessions.NewSessionIdsDistinct | src/document_analyzer/data_ingestion.py:17 | a minted id is 32 characters long, and two minted ids are equal exactly when their stamps and random digits are |
| Sessions.SessionId | src/multi_document_chat/data_ingestion.py:32 | a non-empty supplied id is used verbatim; a missing or empty one is replaced by a fresh 32-character `session_…` id; the result is never empty |
| Sessions.ReuseIsIdempotent | src/document_analyzer/data_ingestion.py:17 | passing a session's id back in reaches the same session whatever the clock and random source say |
| Paths.Join | src/document_analyzer/data_ingestion.py:44 | definition of `os.path.join` for two parts; its properties are stated by JoinRelative, JoinAbsolute and JoinName |
| Paths.RFindIsLast | src/multi_document_chat/data_ingestion.py:56 | the index found holds the character, and no later index does; -1 means the character is absent |
| Paths.Trim | src/multi_document_chat/data_ingestion.py:56 | the path with its trailing `/` and `/.` components dropped, as pathlib normalises it, is a prefix of the path |
| Paths.Name | src/multi_document_chat/data_ingestion.py:56 | definition of `Path.name`; its properties are stated by NameProperties |
| Paths.NameProperties | src/multi_document_chat/data_ingestion.py:56 | `Path.name` has no slash and is never `.`; it ends the path once trailing `/` and `/.` components are dropped; it is the whole path when that has no slash and is not `.`; adding a trailing `/` or `/.` does not change it |
| Paths.Suffix | src/multi_document_chat/data_ingestion.py:56 | definition of `Path.suffix`; its properties are stated by SuffixProperties |
| Paths.SuffixProperties | src/multi_document_chat/data_ingestion.py:56 | `Path.suffix` is empty or a dot followed by dot-free text, ends the name, and is non-empty exactly when some dot is neither first nor last and has no dot after it |
| Paths.SuffixOfStem | src/multi_document_chat/data_ingestion.py:60 | a dot-free stem followed by a suffix-shaped extension has that extension as its suffix |
| Paths.JoinRelative | src/document_analyzer/data_ingestion.py:44 | joining a relative part keeps the folder as a prefix and ends with the part |
| Paths.JoinAbsolute | src/document_analyzer/data_ingestion.py:44 | joining an absolute part discards the folder |
| Paths.JoinName | src/multi_document_chat/data_ingestion.py:61 | the name of `folder / name` is `name` when `name` has no slash and is neither empty nor `.` |
| Text.Join | src/document_analyzer/data_ingestion.py:62 | definition of `sep.join(parts)`; its properties are stated by JoinLength, JoinPartAt and JoinAppend |
| Text.JoinLength | src/document_analyzer/data_ingestion.py:62 | the length of a join is the parts' lengths plus one separator between each pair |
| Text.JoinPartAt | src/document_analyzer/data_ingestion.py:62 | each part appears whole at the offset its predecessors and separators take up, followed by the separator unless it is last |
| Text.JoinAppend | src/document_analyzer/data_ingestion.py:62 | joining one more part appends the separator and that part |
| Text.Lower | src/multi_document_chat/data_ingestion.py:56 | definition of ASCII `str.lower()`; its properties are stated by LowerLength, LowerAppend and LowerIdempotent |
| Text.LowerLength | src/multi_document_chat/data_ingestion.py:56 | lower-casing keeps the length and works character by character |
| Text.LowerAppend | src/document_analyzer/data_ingestion.py:41 | lower-casing distributes over concatenation |
| Text.LowerIdempotent | src/multi_document_chat/data_ingestion.py:56 | lower-casing twice is lower-casing once |
| Text.Contains | utils/model_loader.py:61 | definition of `k in s` on strings; ContainsAt states what it means |
| Text.OccursAt | utils/model_loader.py:61 | definition: `k` occurs in `s` at index `i`; used by ContainsAt |
| Text.ContainsAt | utils/model_loader.py:61 | `k in s` holds exactly when `k` occurs in `s` at some index |
| Text.FirstCharMissing | utils/model_loader.py:61 | a string whose first character `s` lacks is not in `s` |
| Text.NatToString | exception/custom_exception.py:61 | `str(n)` is non-empty, all digits, and has no leading zero |
| Text.NatToStringRoundTrip | exception/custom_exception.py:61 | the digits of `str(n)` denote `n` |
| Text.Pad2RoundTrip | src/multi_document_chat/data_ingestion.py:32 | a two-digit field denotes the number it renders |
| Text.Pad2Injective | src/multi_document_chat/data_ingestion.py:32 | two-digit fields of different numbers differ |
| Text.Pad4Injective | src/multi_document_chat/data_ingestion.py:32 | four-digit year fields of different years differ |
| DocumentAnalysis.DataDir | src/document_analyzer/data_ingestion.py:16 | definition: the data folder is the argument, else `DATA_STORAGE_PATH`, else `<cwd>/data/document_analysis`; stated by the constructor |
| DocumentAnalysis.DocumentHandler.constructor | src/document_analyzer/data_ingestion.py:13-19 | the data folder is the argument, else `DATA_STORAGE_PATH`, else `<cwd>/data/document_analysis`; the session id is reused or minted; the session path is their join |
| DocumentAnalysis.IsPdfName | src/document_analyzer/data_ingestion.py:41 | definition of `filename.lower().endswith(".pdf")`; PdfNameCheck states what it accepts |
| DocumentAnalysis.PdfNameCheck | src/document_analyzer/data_ingestion.py:41 | a name passes exactly when its last four characters are `.pdf` in any case |
| DocumentAnalysis.DocumentHandler.SavePdf | src/document_analyzer/data_ingestion.py:30-53 | succeeds exactly when the name passes the PDF check and the write works, and returns the session path joined with the name. A plain name is then the file name of that path, under the session folder. A rejected name gives "Invalid file type. Only PDFs are allowed". Both failures are wrapped as "Error in saving the pdf" |
| DocumentAnalysis.PageHeader | src/document_analyzer/data_ingestion.py:61 | definition of the `\n--- Page n ---\n` header; PageAt states where each appears |
| DocumentAnalysis.PageSegment | src/document_analyzer/data_ingestion.py:61 | definition of a page's header followed by its text; PageAt states where each appears |
| DocumentAnalysis.Segments | src/document_analyzer/data_ingestion.py:60-61 | one segment per page |
| DocumentAnalysis.PdfText | src/document_analyzer/data_ingestion.py:58-62 | definition of the text `read_pdf` returns; its layout is stated by PageAt and PdfTextAppend |
| DocumentAnalysis.DocumentHandler.ReadPdf | src/document_analyzer/data_ingestion.py:56-68 | returns the pages' segments `\n--- Page k ---\n<text>`, numbered from 1 and joined by newlines; a failure to open or read is wrapped as "Error in reading the pdf" |
| DocumentAnalysis.PageAt | src/document_analyzer/data_ingestion.py:58-62 | page k appears in the text as the header numbered k+1 followed by its text, and one newline separates it from the next page's header |
| DocumentAnalysis.PageTextAt | src/document_analyzer/data_ingestion.py:58-62 | page k's header numbered k+1 and then its text lie at that page's offset in the text |
| DocumentAnalysis.NextPageAt | src/document_analyzer/data_ingestion.py:58-62 | right after page k comes one newline, and the next page starts just past it |
| DocumentAnalysis.PdfTextAppend | src/document_analyzer/data_ingestion.py:58-62 | no pages give the empty text; a single page gives its segment; one more page appends a newline and the next numbered segment |
| Gathering.Gather | src/multi_document_chat/data_ingestion.py:54-79 | definition of the loop's documents: the pieces concatenated in order, or the first failure; its properties are stated by GatherSucceeds, GatherFails and GatherSuccessIff |
| Gathering.GatherSucceeds | src/multi_document_chat/data_ingestion.py:54-79 | when every step succeeds, the gathered list is every step's documents concatenated in order |
| Gathering.GatherFails | src/multi_document_chat/data_ingestion.py:54-79 | when every step before `i` succeeds and step `i` fails, the result is step `i`'s failure |
| Gathering.GatherSuccessIff | src/multi_document_chat/data_ingestion.py:54-79 | gathering succeeds exactly when every step does |
| Gathering.GatherFailureSticks | src/multi_document_chat/data_ingestion.py:78-79 | once a prefix has failed, later steps do not change the outcome |
| Gathering.StopsAt | src/multi_document_chat/data_ingestion.py:54-79 | when the steps before `i` gather and step `i` fails, `i` is the one first failing step, gathering fails with its error, and what was written up to and including it is a prefix of everything written |
| Gathering.StopsWith | src/multi_document_chat/data_ingestion.py:54-79 | definition: at the first failing step `i`, the files written are exactly those of steps 0..i and the warnings exactly those of steps before `i`; StopsWithAt and StopsWithNone establish it |
| Gathering.FlattenPrefix | src/multi_document_chat/data_ingestion.py:62-63 | what a prefix of the steps writes is a prefix of what all of them write |
| Gathering.FlattenEmpty | src/multi_document_chat/data_ingestion.py:81-82 | steps that all contribute nothing gather nothing |
| Gathering.Values | src/multi_document_chat/data_ingestion.py:78-79 | definition: the values of all-successful steps, in order; used by GatherSucceeds |
| MultiDocIngestion.Extension | src/multi_document_chat/data_ingestion.py:56 | definition of `Path(name).suffix.lower()`; SavedCopyKeepsExtension states what it gives for a saved copy |
| MultiDocIngestion.IsSupported | src/multi_document_chat/data_ingestion.py:57 | definition: the extension is one of `.pdf`, `.docx`, `.txt`, `.md`; used by NothingKeptFails and FirstLoaderFailureAborts |
| MultiDocIngestion.SavedFileFor | src/multi_document_chat/data_ingestion.py:60-61 | definition of `session_temp_dir / f"{uuid4().hex[:8]}{ext}"`; its properties are stated by SavedCopyKeepsExtension |
| MultiDocIngestion.LoaderFor | src/multi_document_chat/data_ingestion.py:69-74 | definition of the corrected loader choice: `.pdf` to PyPDF, `.docx` to Docx2txt, else UTF-8 text; MarkdownFirstIsUnbound and MarkdownReloadsPrevious compare it with the code as written |
| MultiDocIngestion.Loaded | src/multi_document_chat/data_ingestion.py:55-79 | definition of one pass of the loop: nothing for an unsupported extension, else the write's failure or the loader's result for the saved copy; FirstLoaderFailureAborts and FailedWriteAborts state its effect |
| MultiDocIngestion.Pieces | src/multi_document_chat/data_ingestion.py:55-79 | definition: what each upload contributes, in order; used by Collect |
| MultiDocIngestion.Collect | src/multi_document_chat/data_ingestion.py:54-79 | definition of the loop's outcome over all uploads; SaveAndLoad is proved equal to it, and AllLoadedGathersInOrder and FirstLoaderFailureAborts state its properties |
| MultiDocIngestion.WriteOf | src/multi_document_chat/data_ingestion.py:60-63 | definition: the copy one upload writes, when it is kept and the write works |
| MultiDocIngestion.WriteSteps | src/multi_document_chat/data_ingestion.py:60-63 | definition: what each upload writes, in order; used by Writes and StopsWith |
| MultiDocIngestion.Writes | src/multi_document_chat/data_ingestion.py:60-63 | definition: every file the loop writes, in order; NothingKeptFails states it is empty when nothing is kept |
| MultiDocIngestion.SkipOf | src/multi_document_chat/data_ingestion.py:57-59 | definition: the warning for one upload with an unsupported extension |
| MultiDocIngestion.SkipSteps | src/multi_document_chat/data_ingestion.py:57-59 | definition: the warning step of each upload, in order; used by Skipped and StopsWith |
| MultiDocIngestion.Skipped | src/multi_document_chat/data_ingestion.py:57-59 | definition: every upload warned about, in order |
| MultiDocIngestion.SavedCopyKeepsExtension | src/multi_document_chat/data_ingestion.py:56-61 | a kept upload is saved as eight hex digits plus its lower-cased extension. The path is the session folder joined with that name, so the copy lies directly in the folder. That extension is again the saved copy's extension |
| MultiDocIngestion.SupportedExtensionShape | src/multi_document_chat/data_ingestion.py:20 | every supported extension is a dot followed by text without dots or slashes |
| MultiDocIngestion.CreateRetriever | src/multi_document_chat/data_ingestion.py:92-106 | splits with size 1000 and overlap 300, builds and saves the index in the given folder, and searches for the top 5. An embeddings failure or a build failure is wrapped as "Error creating retriever." |
| MultiDocIngestion.IngestResult | src/multi_document_chat/data_ingestion.py:52-89 | definition of `ingest_file`'s outcome; IngestFile is proved equal to it, and NothingKeptFails, FirstLoaderFailureAborts and FailedWriteAborts state its failures |
| MultiDocIngestion.DocumentIngestor.constructor | src/multi_document_chat/data_ingestion.py:25-38 | the session upload folder is `temp_dir / session_id`, and the FAISS folder is that same folder |
| MultiDocIngestion.DocumentIngestor.Create | src/multi_document_chat/data_ingestion.py:22-49 | fails exactly when the `ModelLoader` cannot be built, wrapped as "Error initilizing data ingestion"; otherwise the session id is reused or minted and both session folders are `temp_dir / session_id` |
| MultiDocIngestion.DocumentIngestor.SaveAndLoad | src/multi_document_chat/data_ingestion.py:54-79 | the loop gathers the documents of every kept upload in order, or stops at the first write or loader that fails, with its error. On success the files written and the warnings are the full in-order lists. At the first failing upload `i` they are exactly those of uploads 0..i (written) and of uploads before `i` (warned) |
| MultiDocIngestion.DocumentIngestor.SaveAndLoadOne | src/multi_document_chat/data_ingestion.py:55-79 | one pass of the loop: the upload's contribution, the copy it wrote and the warning it gave are those Loaded, WriteOf and SkipOf define |
| MultiDocIngestion.DocumentIngestor.IngestFile | src/multi_document_chat/data_ingestion.py:52-89 | the result is the retriever built over everything gathered, in the session FAISS folder. The files written and the uploads warned about are the in-order lists, cut exactly at the first failing write or loader. Every failure, including an empty document list, is wrapped as "Error ingesting a file" |
| MultiDocIngestion.NothingKeptFails | src/multi_document_chat/data_ingestion.py:81-82 | when no upload has a supported extension, nothing is written and ingestion fails with "No valid documents found" |
| MultiDocIngestion.FirstLoaderFailureAborts | src/multi_document_chat/data_ingestion.py:78-89 | the first failing write or loader's error is what ingestion reports, and that upload was a supported one |
| MultiDocIngestion.FailedWriteAborts | src/multi_document_chat/data_ingestion.py:62-63 | a kept upload whose copy cannot be written aborts ingestion with what the write raised |
| MultiDocIngestion.AllLoadedGathersInOrder | src/multi_document_chat/data_ingestion.py:78-79 | when every load succeeds, the documents are each upload's documents concatenated in upload order |
| MultiDocIngestion.CollectPair | src/multi_document_chat/data_ingestion.py:78-79 | two uploads that each load gather to their documents in upload order |
| MultiDocIngestion.LoaderAsWritten | src/multi_document_chat/data_ingestion.py:69-76 | definition of the loader choice as written: `.md` keeps the previous binding; MarkdownFirstIsUnbound and MarkdownReloadsPrevious state its effect |
| MultiDocIngestion.CollectAsWritten | src/multi_document_chat/data_ingestion.py:54-79 | definition of the loop as written, carrying the `loader` variable between uploads; MarkdownFirstIsUnbound and MarkdownReloadsPrevious state its effect |
| MultiDocIngestion.MarkdownFirstIsUnbound | src/multi_document_chat/data_ingestion.py:69-78 | as written, a leading `.md` upload fails with an unbound `loader`; the corrected selection loads it as UTF-8 text |
| MultiDocIngestion.MarkdownAfterPdfAsWritten | src/multi_document_chat/data_ingestion.py:69-78 | as written, a `.md` upload after a `.pdf` loads the PDF copy a second time |
| MultiDocIngestion.MarkdownReloadsPrevious | src/multi_document_chat/data_ingestion.py:69-78 | as written, a `.md` upload after a `.pdf` reloads the PDF copy and never reads the `.md` file; the corrected selection loads each file once |
| Retrieval.BuildChain | src/multi_document_chat/retrieval.py:101-126 | definition: the chain closes over the current LLM and retriever; ConversationalRAG.Valid keeps it so |
| Retrieval.FormatDocuments | src/multi_document_chat/retrieval.py:97-99 | definition of `_format_documents`; its layout is stated by FormatFew, FormatAppend and FormatPlacesEachDocument |
| Retrieval.PageContents | src/multi_document_chat/retrieval.py:99 | definition: the documents' contents in order; used by FormatDocuments |
| Retrieval.FormatFew | src/multi_document_chat/retrieval.py:97-99 | no documents give an empty context; one gives its own content |
| Retrieval.FormatAppend | src/multi_document_chat/retrieval.py:97-99 | one more document adds a blank line and its content |
| Retrieval.FormatPlacesEachDocument | src/multi_document_chat/retrieval.py:97-99 | every document's content appears whole and in order in the context, and a blank line separates it from the next |
| Retrieval.RewritePrompt | src/multi_document_chat/retrieval.py:104-106 | definition: the contextualize prompt over `input` and `chat_history`; RunChainReadsOnlyInputAndHistory states what it reads |
| Retrieval.AnswerPrompt | src/multi_document_chat/retrieval.py:116-122 | definition: the QA prompt over the context, `input` and `chat_history`; RunChainStages and RunChainReadsOnlyInputAndHistory state its use |
| Retrieval.RunChain | src/multi_document_chat/retrieval.py:101-126 | definition of one run of the chain, stage by stage; its properties are stated by RunChainStages, RunChainFailures, RunChainReadsOnlyInputAndHistory, RetrievalUsesRewrittenQuestion and RewriteFailureSkipsSearch |
| Retrieval.RunChainStages | src/multi_document_chat/retrieval.py:104-124 | a successful run rewrote the question, searched with exactly the rewrite, joined what was found, and answered from that context |
| Retrieval.RunChainFailures | src/multi_document_chat/retrieval.py:104-124 | a run fails with the first failing stage's error, and succeeds exactly when the answer stage does after the others |
| Retrieval.RunChainReadsOnlyInputAndHistory | src/multi_document_chat/retrieval.py:104-122 | two input mappings that agree on `input` and `chat_history` give the same run |
| Retrieval.RetrievalUsesRewrittenQuestion | src/multi_document_chat/retrieval.py:113 | runs whose rewrites agree retrieve the same documents and build the same context |
| Retrieval.RewriteFailureSkipsSearch | src/multi_document_chat/retrieval.py:113 | when the rewrite fails, the search is never consulted and the run fails with the rewrite's error |
| Retrieval.AnswerOf | src/multi_document_chat/retrieval.py:75 | definition of `response.get("answer", "No answer")`; Invoke states its effect |
| Retrieval.LlmFor | src/multi_document_chat/retrieval.py:88-95 | succeeds exactly when the loader builds and `load_llm` succeeds, giving that LLM |
| Retrieval.EmbeddingsFor | src/multi_document_chat/retrieval.py:53 | succeeds exactly when the loader builds and the embeddings load, giving those embeddings |
| Retrieval.ConversationalRAG.constructor | src/multi_document_chat/retrieval.py:31-40 | keeps the session id, LLM and retriever, and the chain is built over them |
| Retrieval.ConversationalRAG.Create | src/multi_document_chat/retrieval.py:28-45 | fails exactly when one of these happens, in this order: the LLM cannot be loaded, the registry lacks the contextualize prompt or the QA prompt, the retriever is missing, or the chain build raises. An LLM failure is wrapped as "Failed to load LLM.". A registry lookup's error passes unwrapped. A missing retriever is the `ValueError`. A build failure is wrapped as "Failed to build lcel chain.". Each is wrapped again as "Error in initializing ConversationalRAG." |
| Retrieval.PromptsFound | src/multi_document_chat/retrieval.py:33-34 | definition: the registry holds both prompts; Create states its use |
| Retrieval.ConversationalRAG.LoadRetrieverFromFaiss | src/multi_document_chat/retrieval.py:48-67 | the failures, in order, are: the embeddings, a missing folder (`FileNotFoundError`), the index load, and the chain rebuild. Each is wrapped as "Error laoding retriever from FAISS", and a rebuild failure first as "Failed to build lcel chain.". The first three change nothing. Once the index loads, the new retriever searches it for the top 5 and replaces the old one. After that, a failed rebuild keeps the old chain; otherwise the chain is rebuilt over the new retriever, which is returned |
| Retrieval.ConversationalRAG.Invoke | src/multi_document_chat/retrieval.py:69-86 | runs the chain last built. It fails exactly when the run does, wrapped as "Failed to invoke conversational RAG.". Otherwise it returns the response's `answer`, or "No answer" when the response has none. It warns exactly when the returned answer is empty |
| Retrieval.ChainInputs | src/multi_document_chat/retrieval.py:71-72 | definition: the mapping `invoke` passes holds exactly `input` and `chat_history` |

## Left out

- Logging (`CustomLogger`) is left out. The only thing modelled is which uploads `ingest_file` warns about and whether `invoke` warns.
- Creating folders (`mkdir`, `os.makedirs`) is left out; the model only computes the paths.
- File contents, PDF parsing (`fitz`), the document loaders, text splitting, embedding, FAISS build/save/load, the LLM and the vector search are all left out. Each is an input function whose results the model takes as given.
- The clock, `uuid4`, `os.getcwd`, `os.path.isdir`, `load_dotenv` and `load_config` are inputs too. So are the environment, the prompt registry (`prompt/prompt_library.py` is not part of this model) and whether `_build_lcel_chain` raises.
- Lower-casing and `repr` cover ASCII only. Non-ASCII characters are neither case-folded nor escaped.
- `DocumentPortalException.constructor`: `str(error_message)` is taken as already rendered, and `traceback.format_exception` is an input function.
- Retrieval.RunChain: LCEL runs the branches of a parallel mapping concurrently. The model checks `input` before `chat_history` and runs the stages one after another.
- Several source lines cannot run as written. For each, the model follows the evident dataflow:
  - `session_id = session_id` lacks a comma before the next keyword argument (src/multi_document_chat/data_ingestion.py:42-43).
  - `__init__` calls `self.load_llm()`, but the method is `_load_llm` (src/multi_document_chat/retrieval.py:32).
  - `PromptType` is imported from `model.models`, which does not define it (src/multi_document_chat/retrieval.py:14). The model takes each registry lookup as an input that says what it raises.
  - `StrOutputParser` is passed uninstantiated (src/multi_document_chat/retrieval.py:108).
  - The chain is built with `self.chain(...)` instead of assigned (src/multi_document_chat/retrieval.py:116).
  - `FileNotFoundError` receives a keyword argument (src/multi_document_chat/retrieval.py:55); the model raises it with the index path.
  - `invoke` sends no `chat_history` (src/multi_document_chat/retrieval.py:71-73); `Invoke` takes the history as an argument.
  - The chain returns a string while `invoke` calls `.get` on it (src/multi_document_chat/retrieval.py:75). The model takes the answer stage's output to be the response mapping `.get` reads, which may or may not hold `answer`.
  - Every logging call that passes keyword arguments raises `TypeError`: the logger is a standard `logging.Logger` (logger/custom_logger.py:23-24), enabled at INFO by `basicConfig` (logger/custom_logger.py:16). The calls are at src/multi_document_chat/data_ingestion.py:58, 64, 76, 84, 97 and 101; utils/model_loader.py:51, 62, 71 and 97; src/document_analyzer/data_ingestion.py:22, 48 and 64; and src/multi_document_chat/retrieval.py:41, 44, 66, 78, 80, 85, 91, 94, 128 and 131. As written, every operation whose success path logs this way always fails, an error handler that logs this way raises `TypeError` in place of its `DocumentPortalException`, the first unsupported upload aborts `ingest_file`, and a missing provider key gives `TypeError` rather than `ValueError`. The model follows the evident structured-logging intent: these calls have no effect.
- Retrieval.ConversationalRAG.LoadRetrieverFromFaiss: `_build_lcel_chain()` as written rebuilds nothing. The model rebuilds the chain over the new retriever.
- `ModelLoading.Show` renders a float by the text Python prints for it; the model does no floating-point arithmetic.
- ModelLoading.Show: a mapping given as the provider is rendered as `{...}` in "Unsupported LLM provider: …", not as Python's dict display, because the model's mappings keep no insertion order.
- ModelLoading.Value has no list case, so a YAML list where the loader expects a mapping is not modelled. On a list, `in` tests element membership and subscripting with a string raises "list indices must be integers or slices, not str".
- MultiDocIngestion.CreateRetriever: splitting is part of the `build` input, so it happens after the embeddings load, where the source splits first. When both splitting and the embeddings fail, the model reports the embeddings' error and the source the splitter's.
- Paths.Join: it also stands for `Path(p) / q` (src/multi_document_chat/data_ingestion.py:33-34 and 61), where it keeps the text as given. pathlib also drops `.` components and collapses doubled slashes, so `Path("./data") / "s"` is `data/s` while the model gives `./data/s`. The name, suffix and folder of the result are the same either way.
- Paths are POSIX paths: `/` is the only separator, and `Path.name` and `Path.suffix` follow `PurePosixPath`. Windows separators and drive letters are not modelled.
- `api/main.py`, `test.py`, `model/models.py`, `logger/custom_logger.py`, `src/document_analyzer/data_analysis.py`, `src/single_document_chat/` and `src/document_compare/` are not part of this model.

## Findings

| source | as written | input that shows it | evidently intended | confidence | as-written member | corrected member |
|---|---|---|---|---|---|---|
| src/multi_document_chat/data_ingestion.py:69-78 | `.md` is a supported type but has no loader branch. For a `.md` upload, `loader` keeps the previous file's loader, or is unbound | uploads `["a.md"]` raise `UnboundLocalError`; uploads `["a.pdf", "b.md"]` load `a.pdf` twice and never read `b.md` | `.md` read with `TextLoader(encoding="utf-8")` | not executed | MultiDocIngestion.CollectAsWritten (with MarkdownFirstIsUnbound, MarkdownReloadsPrevious) | MultiDocIngestion.LoaderFor (with AllLoadedGathersInOrder) |

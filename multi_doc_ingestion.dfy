/** `DocumentIngestor` (src/multi_document_chat/data_ingestion.py): filters uploads by extension,
    saves each kept upload under a generated name, loads it with the loader its extension selects,
    and builds a retriever over everything loaded. */
module MultiDocIngestion {
  import opened Wrappers
  import opened Failures
  import opened Text
  import opened Documents
  import opened Gathering
  import Paths
  import Sessions
  import ModelLoading

  /** An uploaded file: its name and what `read()` returns. */
  datatype Upload = Upload(name: string, content: seq<bv8>)

  /** A file written under the session folder. */
  datatype SavedFile = SavedFile(path: string, content: seq<bv8>)

  /** `PyPDFLoader`, `Docx2txtLoader` and `TextLoader(encoding="utf-8")`. */
  datatype LoaderKind = PyPdf | Docx2txt | TextUtf8

  /** `loader.load()` for a loader of a kind over a saved file: the documents, or what it raised. */
  type Load = (LoaderKind, SavedFile) -> Result<seq<Document>, Failure>

  /** `open(path, "wb")` and `f.write(...)` for a file and its bytes: None when it worked,
      otherwise what was raised. */
  type Write = (string, seq<bv8>) -> Option<Failure>

  /** Building the FAISS store from the split documents with the embeddings, and saving it in a
      folder (`FAISS.from_documents(...)`, then `save_local`). */
  type BuildIndex = (Splitter, seq<Document>, ModelLoading.Embeddings, string) -> Result<VectorIndex, Failure>

  const SupportedFileTypes: set<string> := {".pdf", ".docx", ".txt", ".md"}
  const IngestSplitter := Splitter(1000, 300)

  /** `Path(name).suffix.lower()` */
  function Extension(name: string): string
  {
    Lower(Paths.Suffix(Paths.Name(name)))
  }

  predicate IsSupported(name: string)
  {
    Extension(name) in SupportedFileTypes
  }

  predicate AllUuidHex(uuids: seq<string>)
  {
    forall i :: 0 <= i < |uuids| ==> Sessions.IsUuidHex(uuids[i])
  }

  /** Where a kept upload is written: `session_temp_dir / f"{uuid.uuid4().hex[:8]}{ext}"`. */
  function SavedFileFor(dir: string, u: Upload, uuidHex: string): SavedFile
    requires Sessions.IsUuidHex(uuidHex)
  {
    SavedFile(Paths.Join(dir, Sessions.ShortHex(uuidHex) + Extension(u.name)), u.content)
  }

  /** The loader each supported extension selects. `.md` is read as plain text; see the
      findings in README for what the source does with it. */
  function LoaderFor(ext: string): LoaderKind
  {
    if ext == ".pdf" then PyPdf
    else if ext == ".docx" then Docx2txt
    else TextUtf8
  }

  /** What one upload contributes: nothing when its extension is not supported; otherwise what
      writing its copy raised, or else what its loader gives for that copy. */
  function Loaded(dir: string, u: Upload, uuidHex: string, load: Load, write: Write): Result<seq<Document>, Failure>
    requires Sessions.IsUuidHex(uuidHex)
  {
    if !IsSupported(u.name) then Success([])
    else
      var file := SavedFileFor(dir, u, uuidHex);
      match write(file.path, file.content)
      case Some(e) => Failure(e)
      case None => load(LoaderFor(Extension(u.name)), file)
  }

  /** What each upload contributes, in order. */
  function Pieces(dir: string, uploads: seq<Upload>, uuids: seq<string>, load: Load, write: Write): (ps: seq<Result<seq<Document>, Failure>>)
    requires |uuids| == |uploads| && AllUuidHex(uuids)
    ensures |ps| == |uploads|
    ensures forall i :: 0 <= i < |uploads| ==> ps[i] == Loaded(dir, uploads[i], uuids[i], load, write)
  {
    seq(|uploads|, i requires 0 <= i < |uploads| => Loaded(dir, uploads[i], uuids[i], load, write))
  }

  /** The documents gathered over `uploads` in order, or the first failure. */
  function Collect(dir: string, uploads: seq<Upload>, uuids: seq<string>, load: Load, write: Write): Result<seq<Document>, Failure>
    requires |uuids| == |uploads| && AllUuidHex(uuids)
  {
    Gather(Pieces(dir, uploads, uuids, load, write))
  }

  /** The file written for one upload: its copy when it is kept and the write works, none
      otherwise. */
  function WriteOf(dir: string, u: Upload, uuidHex: string, write: Write): seq<SavedFile>
    requires Sessions.IsUuidHex(uuidHex)
  {
    var file := SavedFileFor(dir, u, uuidHex);
    if IsSupported(u.name) && write(file.path, file.content).None? then [file] else []
  }

  function WriteSteps(dir: string, uploads: seq<Upload>, uuids: seq<string>, write: Write): (ws: seq<seq<SavedFile>>)
    requires |uuids| == |uploads| && AllUuidHex(uuids)
    ensures |ws| == |uploads|
    ensures forall i :: 0 <= i < |uploads| ==> ws[i] == WriteOf(dir, uploads[i], uuids[i], write)
  {
    seq(|uploads|, i requires 0 <= i < |uploads| => WriteOf(dir, uploads[i], uuids[i], write))
  }

  /** The files written for `uploads`, in order. */
  function Writes(dir: string, uploads: seq<Upload>, uuids: seq<string>, write: Write): seq<SavedFile>
    requires |uuids| == |uploads| && AllUuidHex(uuids)
  {
    Flatten(WriteSteps(dir, uploads, uuids, write))
  }

  /** The warning for one upload: given when its extension is not supported. */
  function SkipOf(u: Upload): seq<Upload>
  {
    if IsSupported(u.name) then [] else [u]
  }

  function SkipSteps(uploads: seq<Upload>): (ks: seq<seq<Upload>>)
    ensures |ks| == |uploads|
    ensures forall i :: 0 <= i < |uploads| ==> ks[i] == SkipOf(uploads[i])
  {
    seq(|uploads|, i requires 0 <= i < |uploads| => SkipOf(uploads[i]))
  }

  /** The uploads warned about as unsupported, in order. */
  function Skipped(uploads: seq<Upload>): seq<Upload>
  {
    Flatten(SkipSteps(uploads))
  }

  /** `_create_retriever`: split with size 1000 and overlap 300, embed, build and save the index in
      the session's FAISS folder, and search it for the 5 most similar chunks. */
  function CreateRetriever(faissDir: string, documents: seq<Document>,
                           embeddings: Result<ModelLoading.Embeddings, Failure>, build: BuildIndex): (r: Result<Retriever, Failure>)
    ensures embeddings.Failure? ==> r == Failure(Wrap("Error creating retriever.", embeddings.error))
    ensures embeddings.Success? && build(IngestSplitter, documents, embeddings.value, faissDir).Failure? ==>
      r == Failure(Wrap("Error creating retriever.", build(IngestSplitter, documents, embeddings.value, faissDir).error))
    ensures r.Success? ==>
      embeddings.Success? && r.value.k == 5 && build(IngestSplitter, documents, embeddings.value, faissDir) == Success(r.value.index)
  {
    match embeddings
    case Failure(e) => Failure(Wrap("Error creating retriever.", e))
    case Success(emb) =>
      match build(IngestSplitter, documents, emb, faissDir)
      case Failure(e) => Failure(Wrap("Error creating retriever.", e))
      case Success(index) => Success(SimilarityRetriever(index, TopK))
  }

  /** The outcome of `ingest_file`: every failure inside it is re-raised as "Error ingesting a
      file", including the "No valid documents found" raised when nothing was loaded. */
  function IngestResult(tempDir: string, faissDir: string, uploads: seq<Upload>, uuids: seq<string>, load: Load, write: Write,
                        embeddings: Result<ModelLoading.Embeddings, Failure>, build: BuildIndex): Result<Retriever, Failure>
    requires |uuids| == |uploads| && AllUuidHex(uuids)
  {
    match Collect(tempDir, uploads, uuids, load, write)
    case Failure(e) => Failure(Wrap("Error ingesting a file", e))
    case Success(docs) =>
      if docs == [] then Failure(Wrap("Error ingesting a file", PortalError("No valid documents found", None)))
      else
        match CreateRetriever(faissDir, docs, embeddings, build)
        case Failure(e) => Failure(Wrap("Error ingesting a file", e))
        case Success(retriever) => Success(retriever)
  }

  class DocumentIngestor {
    var tempDir: string
    var faissDir: string
    var sessionId: string
    var sessionTempDir: string
    var sessionFaissDir: string
    var modelLoader: ModelLoading.ModelLoader

    constructor (tempDir: string, faissDir: string, sessionId: string, modelLoader: ModelLoading.ModelLoader)
      ensures this.tempDir == tempDir && this.faissDir == faissDir && this.sessionId == sessionId
      ensures sessionTempDir == Paths.Join(tempDir, sessionId) && sessionFaissDir == sessionTempDir
      ensures this.modelLoader == modelLoader
    {
      this.tempDir := tempDir;
      this.faissDir := faissDir;
      this.sessionId := sessionId;
      sessionTempDir := Paths.Join(tempDir, sessionId);
      sessionFaissDir := Paths.Join(tempDir, sessionId);
      this.modelLoader := modelLoader;
    }

    /** `__init__`, whose defaults are `temp_dir="data/mult_document_chat"` and
        `faiss_dir="faiss_index"`; the clock reading and the uuid digits are inputs. As written,
        the session's FAISS folder is the session's upload folder. Building the `ModelLoader`
        can fail, and is re-raised as "Error initilizing data ingestion". */
    static method Create(tempDir: string, faissDir: string, sessionId: Option<string>,
                         now: Sessions.Timestamp, uuidHex: string,
                         env: ModelLoading.Env, loadedConfig: Result<ModelLoading.Value, Failure>)
      returns (r: Result<DocumentIngestor, Failure>)
      requires Sessions.ValidTimestamp(now) && Sessions.IsUuidHex(uuidHex)
      ensures r.Failure? <==> ModelLoading.NewModelLoader(env, loadedConfig).Failure?
      ensures r.Failure? ==>
        r == Failure(Wrap("Error initilizing data ingestion", ModelLoading.NewModelLoader(env, loadedConfig).error))
      ensures r.Success? ==>
        fresh(r.value) && r.value.tempDir == tempDir && r.value.faissDir == faissDir &&
        r.value.sessionId == Sessions.SessionId(sessionId, now, uuidHex) &&
        r.value.sessionTempDir == Paths.Join(tempDir, r.value.sessionId) &&
        r.value.sessionFaissDir == r.value.sessionTempDir &&
        r.value.modelLoader == ModelLoading.NewModelLoader(env, loadedConfig).value
    {
      var id := Sessions.SessionId(sessionId, now, uuidHex);
      var loader := ModelLoading.NewModelLoader(env, loadedConfig);
      if loader.Failure? {
        return Failure(Wrap("Error initilizing data ingestion", loader.error));
      }
      var ingestor := new DocumentIngestor(tempDir, faissDir, id, loader.value);
      return Success(ingestor);
    }

    /** `ingest_file`. `uuids[i]` is the `uuid4().hex` drawn for upload `i` when it is kept.
        Besides the result it gives the files written and the uploads warned about, in order. */
    method IngestFile(uploads: seq<Upload>, uuids: seq<string>, load: Load, write: Write, build: BuildIndex,
                      lib: ModelLoading.Constructors)
      returns (r: Result<Retriever, Failure>, saved: seq<SavedFile>, warned: seq<Upload>)
      requires |uuids| == |uploads| && AllUuidHex(uuids)
      ensures r == IngestResult(sessionTempDir, sessionFaissDir, uploads, uuids, load, write,
                                ModelLoading.LoadEmbeddings(modelLoader.config, lib), build)
      ensures Collect(sessionTempDir, uploads, uuids, load, write).Success? ==>
        saved == Writes(sessionTempDir, uploads, uuids, write) && warned == Skipped(uploads)
      ensures StopsWith(Pieces(sessionTempDir, uploads, uuids, load, write), WriteSteps(sessionTempDir, uploads, uuids, write),
                        SkipSteps(uploads), saved, warned)
      ensures saved <= Writes(sessionTempDir, uploads, uuids, write) && warned <= Skipped(uploads)
    {
      var gathered;
      gathered, saved, warned := SaveAndLoad(uploads, uuids, load, write);
      if gathered.Failure? {
        r := Failure(Wrap("Error ingesting a file", gathered.error));
        return;
      }
      var documents := gathered.value;
      if documents == [] {
        r := Failure(Wrap("Error ingesting a file", PortalError("No valid documents found", None)));
        return;
      }
      var retriever := CreateRetriever(sessionFaissDir, documents, ModelLoading.LoadEmbeddings(modelLoader.config, lib), build);
      r := if retriever.Failure? then Failure(Wrap("Error ingesting a file", retriever.error)) else retriever;
    }

    /** The loop of `ingest_file`: skip and warn about unsupported uploads, save each kept one
        under its generated name and load it, stopping at the first write or loader that
        raises. At that point exactly the uploads before it, and itself, have been written or
        warned about. */
    method SaveAndLoad(uploads: seq<Upload>, uuids: seq<string>, load: Load, write: Write)
      returns (gathered: Result<seq<Document>, Failure>, saved: seq<SavedFile>, warned: seq<Upload>)
      requires |uuids| == |uploads| && AllUuidHex(uuids)
      ensures gathered == Collect(sessionTempDir, uploads, uuids, load, write)
      ensures gathered.Success? ==> saved == Writes(sessionTempDir, uploads, uuids, write) && warned == Skipped(uploads)
      ensures StopsWith(Pieces(sessionTempDir, uploads, uuids, load, write), WriteSteps(sessionTempDir, uploads, uuids, write),
                        SkipSteps(uploads), saved, warned)
      ensures saved <= Writes(sessionTempDir, uploads, uuids, write) && warned <= Skipped(uploads)
    {
      ghost var ps := Pieces(sessionTempDir, uploads, uuids, load, write);
      ghost var ws := WriteSteps(sessionTempDir, uploads, uuids, write);
      ghost var ks := SkipSteps(uploads);
      var documents: seq<Document> := [];
      saved, warned := [], [];
      var i := 0;
      while i < |uploads|
        invariant 0 <= i <= |uploads|
        invariant Gather(ps[..i]) == Success(documents)
        invariant saved == Flatten(ws[..i])
        invariant warned == Flatten(ks[..i])
      {
        var piece, written, skipped := SaveAndLoadOne(uploads[i], uuids[i], load, write);
        saved := saved + written;
        if piece.Failure? {
          StopsAt(ps, ws, ks, i);
          StopsWithAt(ps, ws, ks, i);
          gathered := Failure(piece.error);
          return;
        }
        Advances(ps, ws, ks, i);
        documents := documents + piece.value;
        warned := warned + skipped;
        i := i + 1;
      }
      TakeAll(ps);
      TakeAll(ws);
      TakeAll(ks);
      StopsWithNone(ps, ws, ks, saved, warned);
      gathered := Success(documents);
    }

    /** One pass of the loop of `ingest_file`: an unsupported upload is warned about and
        skipped; a kept one is written under its generated name, then loaded with the loader its
        extension selects. */
    method SaveAndLoadOne(u: Upload, uuidHex: string, load: Load, write: Write)
      returns (piece: Result<seq<Document>, Failure>, written: seq<SavedFile>, skipped: seq<Upload>)
      requires Sessions.IsUuidHex(uuidHex)
      ensures piece == Loaded(sessionTempDir, u, uuidHex, load, write)
      ensures written == WriteOf(sessionTempDir, u, uuidHex, write)
      ensures skipped == SkipOf(u)
    {
      var ext := Extension(u.name);
      if ext !in SupportedFileTypes {
        return Success([]), [], [u];
      }
      var uniqueFilename := Sessions.ShortHex(uuidHex) + ext;
      var tempPath := Paths.Join(sessionTempDir, uniqueFilename);
      var outcome := write(tempPath, u.content);
      if outcome.Some? {
        return Failure(outcome.value), [], [];
      }
      piece := load(LoaderFor(ext), SavedFile(tempPath, u.content));
      written, skipped := [SavedFile(tempPath, u.content)], [];
    }
  }

  /** A kept upload's copy is named by eight hex digits followed by the upload's own extension,
      lies directly in the session folder, and has that same extension when read back. */
  lemma SavedCopyKeepsExtension(dir: string, u: Upload, uuidHex: string)
    requires IsSupported(u.name) && Sessions.IsUuidHex(uuidHex)
    ensures Paths.Name(SavedFileFor(dir, u, uuidHex).path) == Sessions.ShortHex(uuidHex) + Extension(u.name)
    ensures SavedFileFor(dir, u, uuidHex).path == Paths.Join(dir, Paths.Name(SavedFileFor(dir, u, uuidHex).path))
    ensures Extension(SavedFileFor(dir, u, uuidHex).path) == Extension(u.name)
  {
    var stem, ext := Sessions.ShortHex(uuidHex), Extension(u.name);
    SupportedExtensionShape(ext);
    Paths.NoSlashInConcat(stem, ext);
    Paths.JoinName(dir, stem + ext);
    Paths.SuffixOfStem(stem, ext);
    LowerIdempotent(Paths.Suffix(Paths.Name(u.name)));
  }

  /** Every supported extension is a dot followed by dot-free, slash-free text. */
  lemma SupportedExtensionShape(ext: string)
    requires ext in SupportedFileTypes
    ensures ext != "" && Paths.IsSuffixShape(ext) && '/' !in ext
  {
  }

  /** When no upload has a supported extension nothing is written or loaded and ingestion fails
      with "No valid documents found". */
  lemma {:induction false} NothingKeptFails(tempDir: string, faissDir: string, uploads: seq<Upload>, uuids: seq<string>,
                                            load: Load, write: Write, embeddings: Result<ModelLoading.Embeddings, Failure>,
                                            build: BuildIndex)
    requires |uuids| == |uploads| && AllUuidHex(uuids)
    requires forall i :: 0 <= i < |uploads| ==> !IsSupported(uploads[i].name)
    ensures IngestResult(tempDir, faissDir, uploads, uuids, load, write, embeddings, build)
      == Failure(Wrap("Error ingesting a file", PortalError("No valid documents found", None)))
    ensures Writes(tempDir, uploads, uuids, write) == []
  {
    var ps := Pieces(tempDir, uploads, uuids, load, write);
    GatherSucceeds(ps);
    FlattenEmpty(Values(ps));
    FlattenEmpty(WriteSteps(tempDir, uploads, uuids, write));
  }

  /** Ingestion stops at the first kept upload whose write or loader fails and reports that
      failure. */
  lemma FirstLoaderFailureAborts(tempDir: string, faissDir: string, uploads: seq<Upload>, uuids: seq<string>,
                                 load: Load, write: Write, embeddings: Result<ModelLoading.Embeddings, Failure>,
                                 build: BuildIndex, i: nat)
    requires |uuids| == |uploads| && AllUuidHex(uuids) && i < |uploads|
    requires forall k :: 0 <= k < i ==> Loaded(tempDir, uploads[k], uuids[k], load, write).Success?
    requires Loaded(tempDir, uploads[i], uuids[i], load, write).Failure?
    ensures IsSupported(uploads[i].name)
    ensures IngestResult(tempDir, faissDir, uploads, uuids, load, write, embeddings, build)
      == Failure(Wrap("Error ingesting a file", Loaded(tempDir, uploads[i], uuids[i], load, write).error))
  {
    GatherFails(Pieces(tempDir, uploads, uuids, load, write), i);
  }

  /** A kept upload whose copy cannot be written aborts ingestion with what the write raised,
      before its loader is ever asked. */
  lemma FailedWriteAborts(tempDir: string, faissDir: string, uploads: seq<Upload>, uuids: seq<string>,
                          load: Load, write: Write, embeddings: Result<ModelLoading.Embeddings, Failure>,
                          build: BuildIndex, i: nat)
    requires |uuids| == |uploads| && AllUuidHex(uuids) && i < |uploads|
    requires forall k :: 0 <= k < i ==> Loaded(tempDir, uploads[k], uuids[k], load, write).Success?
    requires IsSupported(uploads[i].name)
    requires write(SavedFileFor(tempDir, uploads[i], uuids[i]).path, uploads[i].content).Some?
    ensures IngestResult(tempDir, faissDir, uploads, uuids, load, write, embeddings, build)
      == Failure(Wrap("Error ingesting a file", write(SavedFileFor(tempDir, uploads[i], uuids[i]).path, uploads[i].content).value))
  {
    FirstLoaderFailureAborts(tempDir, faissDir, uploads, uuids, load, write, embeddings, build, i);
  }

  /** When every kept upload is written and loads, the documents handed to the retriever are
      each upload's documents, concatenated in upload order. */
  lemma AllLoadedGathersInOrder(dir: string, uploads: seq<Upload>, uuids: seq<string>, load: Load, write: Write)
    requires |uuids| == |uploads| && AllUuidHex(uuids)
    requires forall k :: 0 <= k < |uploads| ==> Loaded(dir, uploads[k], uuids[k], load, write).Success?
    ensures Collect(dir, uploads, uuids, load, write) == Success(Flatten(Values(Pieces(dir, uploads, uuids, load, write))))
  {
    GatherSucceeds(Pieces(dir, uploads, uuids, load, write));
  }

  /** A loader bound to the file it reads. */
  datatype BoundLoader = BoundLoader(kind: LoaderKind, file: SavedFile)

  /** The loader selection as written: the `if`/`elif` chain has no branch for `.md`, so for a
      `.md` file `loader` still holds whatever the previous kept file bound, or nothing. */
  function LoaderAsWritten(ext: string, file: SavedFile, previous: Option<BoundLoader>): Option<BoundLoader>
  {
    if ext == ".pdf" then Some(BoundLoader(PyPdf, file))
    else if ext == ".docx" then Some(BoundLoader(Docx2txt, file))
    else if ext == ".txt" then Some(BoundLoader(TextUtf8, file))
    else previous
  }

  /** Gathering as written, from upload `i` on, with the loader left bound by earlier uploads. */
  function CollectAsWritten(dir: string, uploads: seq<Upload>, uuids: seq<string>, load: Load, write: Write,
                            i: nat, previous: Option<BoundLoader>): Result<seq<Document>, Failure>
    requires |uuids| == |uploads| && AllUuidHex(uuids) && i <= |uploads|
    decreases |uploads| - i
  {
    if i == |uploads| then Success([])
    else if !IsSupported(uploads[i].name) then CollectAsWritten(dir, uploads, uuids, load, write, i + 1, previous)
    else
      var file := SavedFileFor(dir, uploads[i], uuids[i]);
      if write(file.path, file.content).Some? then Failure(write(file.path, file.content).value)
      else
        var bound := LoaderAsWritten(Extension(uploads[i].name), file, previous);
        if bound.None? then Failure(UnboundLocalError("loader"))
        else
          match load(bound.value.kind, bound.value.file)
          case Failure(e) => Failure(e)
          case Success(docs) =>
            match CollectAsWritten(dir, uploads, uuids, load, write, i + 1, bound)
            case Failure(e) => Failure(e)
            case Success(more) => Success(docs + more)
  }

  /** A `.md` upload that comes first fails as written, with the unbound `loader`, where the
      corrected selection reads it as text. */
  lemma MarkdownFirstIsUnbound(dir: string, m: Upload, h: string, load: Load, write: Write)
    requires Extension(m.name) == ".md" && Sessions.IsUuidHex(h)
    requires write(SavedFileFor(dir, m, h).path, m.content).None?
    ensures CollectAsWritten(dir, [m], [h], load, write, 0, None) == Failure(UnboundLocalError("loader"))
    ensures Collect(dir, [m], [h], load, write) == load(TextUtf8, SavedFileFor(dir, m, h))
  {
    var x := load(TextUtf8, SavedFileFor(dir, m, h));
    assert LoaderAsWritten(".md", SavedFileFor(dir, m, h), None) == None;
    var ps := Pieces(dir, [m], [h], load, write);
    assert ps == [x];
    if x.Success? {
      GatherSucceeds(ps);
      assert Values(ps) == [x.value] && [x.value][..0] == [];
      assert [] + x.value == x.value;
    } else {
      assert ps[..0] == [];
      GatherFails(ps, 0);
    }
  }

  /** A `.md` upload after a `.pdf` one, as written, loads the `.pdf` copy a second time and
      never reads the `.md` file; the corrected selection loads each file once. */
  lemma MarkdownReloadsPrevious(dir: string, p: Upload, m: Upload, hp: string, hm: string, load: Load, write: Write)
    requires Extension(p.name) == ".pdf" && Extension(m.name) == ".md"
    requires Sessions.IsUuidHex(hp) && Sessions.IsUuidHex(hm)
    requires write(SavedFileFor(dir, p, hp).path, p.content).None?
    requires write(SavedFileFor(dir, m, hm).path, m.content).None?
    requires load(PyPdf, SavedFileFor(dir, p, hp)).Success?
    requires load(TextUtf8, SavedFileFor(dir, m, hm)).Success?
    ensures CollectAsWritten(dir, [p, m], [hp, hm], load, write, 0, None)
      == Success(load(PyPdf, SavedFileFor(dir, p, hp)).value + load(PyPdf, SavedFileFor(dir, p, hp)).value)
    ensures Collect(dir, [p, m], [hp, hm], load, write)
      == Success(load(PyPdf, SavedFileFor(dir, p, hp)).value + load(TextUtf8, SavedFileFor(dir, m, hm)).value)
  {
    MarkdownAfterPdfAsWritten(dir, p, m, hp, hm, load, write);
    assert Loaded(dir, p, hp, load, write) == load(PyPdf, SavedFileFor(dir, p, hp));
    assert Loaded(dir, m, hm, load, write) == load(TextUtf8, SavedFileFor(dir, m, hm));
    CollectPair(dir, p, m, hp, hm, load, write);
  }

  lemma MarkdownAfterPdfAsWritten(dir: string, p: Upload, m: Upload, hp: string, hm: string, load: Load, write: Write)
    requires Extension(p.name) == ".pdf" && Extension(m.name) == ".md"
    requires Sessions.IsUuidHex(hp) && Sessions.IsUuidHex(hm)
    requires write(SavedFileFor(dir, p, hp).path, p.content).None?
    requires write(SavedFileFor(dir, m, hm).path, m.content).None?
    requires load(PyPdf, SavedFileFor(dir, p, hp)).Success?
    ensures CollectAsWritten(dir, [p, m], [hp, hm], load, write, 0, None)
      == Success(load(PyPdf, SavedFileFor(dir, p, hp)).value + load(PyPdf, SavedFileFor(dir, p, hp)).value)
  {
    var fp, fm := SavedFileFor(dir, p, hp), SavedFileFor(dir, m, hm);
    var dp := load(PyPdf, fp).value;
    var bound := Some(BoundLoader(PyPdf, fp));
    assert LoaderAsWritten(".pdf", fp, None) == bound;
    assert LoaderAsWritten(".md", fm, bound) == bound;
    assert CollectAsWritten(dir, [p, m], [hp, hm], load, write, 2, bound) == Success([]);
    assert CollectAsWritten(dir, [p, m], [hp, hm], load, write, 1, bound) == Success(dp + []);
    assert dp + [] == dp;
  }

  /** Two uploads that each load gather to their documents in upload order. */
  lemma CollectPair(dir: string, u: Upload, v: Upload, hu: string, hv: string, load: Load, write: Write)
    requires Sessions.IsUuidHex(hu) && Sessions.IsUuidHex(hv)
    requires Loaded(dir, u, hu, load, write).Success? && Loaded(dir, v, hv, load, write).Success?
    ensures Collect(dir, [u, v], [hu, hv], load, write)
      == Success(Loaded(dir, u, hu, load, write).value + Loaded(dir, v, hv, load, write).value)
  {
    var ps := Pieces(dir, [u, v], [hu, hv], load, write);
    assert ps == [Loaded(dir, u, hu, load, write), Loaded(dir, v, hv, load, write)];
    GatherPair(ps[0], ps[1]);
  }
}

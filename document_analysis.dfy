/** `DocumentHandler` (src/document_analyzer/data_ingestion.py): a per-session folder for one
    uploaded PDF, the check that only PDFs are saved, and the page-labelled text of a PDF. */
module DocumentAnalysis {
  import opened Wrappers
  import opened Failures
  import opened Text
  import Paths
  import Sessions

  type Env = map<string, string>

  /** An uploaded file: its name and what `getbuffer()` returns. */
  datatype PdfUpload = PdfUpload(name: string, buffer: seq<bv8>)

  /** `data_dir or os.getenv("DATA_STORAGE_PATH", os.path.join(os.getcwd(), "data", "document_analysis"))` */
  function DataDir(dataDir: Option<string>, env: Env, cwd: string): string
  {
    if dataDir.Some? && dataDir.value != "" then dataDir.value
    else if "DATA_STORAGE_PATH" in env then env["DATA_STORAGE_PATH"]
    else Paths.Join(Paths.Join(cwd, "data"), "document_analysis")
  }

  /** `filename.lower().endswith(".pdf")` */
  predicate IsPdfName(name: string)
  {
    EndsWith(Lower(name), ".pdf")
  }

  /** The check looks at the last four characters only, and ignores their case: a name is
      accepted exactly when it ends in `.pdf` written in any mix of cases. */
  lemma PdfNameCheck(name: string)
    ensures IsPdfName(name) <==> |name| >= 4 && Lower(name[|name| - 4..]) == ".pdf"
  {
    LowerLength(name);
    if |name| >= 4 {
      var stem, ext := name[..|name| - 4], name[|name| - 4..];
      assert name == stem + ext;
      LowerAppend(stem, ext);
      LowerLength(stem);
      assert Lower(name)[|name| - 4..] == Lower(ext);
    }
  }

  /** The text `read_pdf` puts before page `n`. */
  function PageHeader(n: nat): string
  {
    "\n--- Page " + NatToString(n) + " ---\n"
  }

  /** What page `n` contributes: its header, then its text. */
  function PageSegment(n: nat, text: string): string
  {
    PageHeader(n) + text
  }

  /** The segments of all pages, numbered from 1 in document order. */
  function Segments(pages: seq<string>): (segs: seq<string>)
    ensures |segs| == |pages|
  {
    seq(|pages|, i requires 0 <= i < |pages| => PageSegment(i + 1, pages[i]))
  }

  /** The string `read_pdf` returns for a document whose pages hold `pages`. */
  function PdfText(pages: seq<string>): string
  {
    Join("\n", Segments(pages))
  }

  /** Where page `k` (counting from 0) starts in the text. */
  function PageOffset(pages: seq<string>, k: nat): nat
    requires k <= |pages|
  {
    Span("\n", Segments(pages)[..k])
  }

  /** Each page appears in the text as the header carrying its number (`k + 1`) immediately
      followed by its text, at offsets that grow from page to page: one `\n` separates the end of
      a page's text from the next header. */
  lemma PageAt(pages: seq<string>, k: nat)
    requires k < |pages|
    ensures var o, h := PageOffset(pages, k), PageHeader(k + 1);
      && o + |h| + |pages[k]| <= |PdfText(pages)|
      && PdfText(pages)[o..o + |h|] == h
      && PdfText(pages)[o + |h|..o + |h| + |pages[k]|] == pages[k]
    ensures k + 1 < |pages| ==>
      var end := PageOffset(pages, k) + |PageHeader(k + 1)| + |pages[k]|;
      end < |PdfText(pages)| && PdfText(pages)[end] == '\n' && PageOffset(pages, k + 1) == end + 1
  {
    PageTextAt(pages, k);
    if k + 1 < |pages| {
      NextPageAt(pages, k);
    }
  }

  lemma PageTextAt(pages: seq<string>, k: nat)
    requires k < |pages|
    ensures var o, h := PageOffset(pages, k), PageHeader(k + 1);
      && o + |h| + |pages[k]| <= |PdfText(pages)|
      && PdfText(pages)[o..o + |h|] == h
      && PdfText(pages)[o + |h|..o + |h| + |pages[k]|] == pages[k]
  {
    var segs := Segments(pages);
    JoinPartAt("\n", segs, k);
    assert segs[k] == PageHeader(k + 1) + pages[k];
    SplitSlice(PdfText(pages), PageOffset(pages, k), PageHeader(k + 1), pages[k]);
  }

  lemma NextPageAt(pages: seq<string>, k: nat)
    requires k + 1 < |pages|
    ensures var end := PageOffset(pages, k) + |PageHeader(k + 1)| + |pages[k]|;
      end < |PdfText(pages)| && PdfText(pages)[end] == '\n' && PageOffset(pages, k + 1) == end + 1
  {
    var segs := Segments(pages);
    JoinPartAt("\n", segs, k);
    assert |segs[k]| == |PageHeader(k + 1)| + |pages[k]|;
    assert segs[..k + 1][..k] == segs[..k];
  }

  /** A slice that spells `h + p` spells `h`, then `p`. */
  lemma SplitSlice(t: string, o: nat, h: string, p: string)
    requires o + |h| + |p| <= |t| && t[o..o + |h| + |p|] == h + p
    ensures t[o..o + |h|] == h && t[o + |h|..o + |h| + |p|] == p
  {
    assert t[o..o + |h|] == t[o..o + |h| + |p|][..|h|];
    assert t[o + |h|..o + |h| + |p|] == t[o..o + |h| + |p|][|h|..];
  }

  /** A document with no pages gives the empty text; one more page adds a newline, the next
      number's header and that page's text at the end. */
  lemma PdfTextAppend(pages: seq<string>, p: string)
    ensures PdfText([]) == ""
    ensures PdfText([p]) == PageSegment(1, p)
    ensures |pages| > 0 ==> PdfText(pages + [p]) == PdfText(pages) + "\n" + PageSegment(|pages| + 1, p)
  {
    if |pages| > 0 {
      assert Segments(pages + [p]) == Segments(pages) + [PageSegment(|pages| + 1, p)];
      JoinAppend("\n", Segments(pages), PageSegment(|pages| + 1, p));
    }
  }

  class DocumentHandler {
    var dataDir: string
    var sessionId: string
    var sessionPath: string

    /** `__init__`: the clock reading and the uuid digits are inputs; creating the folder is not
        modelled. */
    constructor (dataDir: Option<string>, sessionId: Option<string>, env: Env, cwd: string,
                 now: Sessions.Timestamp, uuidHex: string)
      requires Sessions.ValidTimestamp(now) && Sessions.IsUuidHex(uuidHex)
      ensures this.dataDir == DataDir(dataDir, env, cwd)
      ensures this.sessionId == Sessions.SessionId(sessionId, now, uuidHex)
      ensures sessionPath == Paths.Join(this.dataDir, this.sessionId)
    {
      this.dataDir := DataDir(dataDir, env, cwd);
      this.sessionId := Sessions.SessionId(sessionId, now, uuidHex);
      sessionPath := Paths.Join(DataDir(dataDir, env, cwd), Sessions.SessionId(sessionId, now, uuidHex));
    }

    /** `save_pdf`: `write` is the outcome of writing the bytes at a path (None when it worked). */
    method SavePdf(upload: PdfUpload, write: (string, seq<bv8>) -> Option<Failure>) returns (r: Result<string, Failure>)
      ensures r.Success? <==> IsPdfName(upload.name) && write(Paths.Join(sessionPath, upload.name), upload.buffer).None?
      ensures r.Success? ==> r.value == Paths.Join(sessionPath, upload.name)
      ensures r.Success? && '/' !in upload.name ==>
        Paths.Name(r.value) == upload.name && r.value[..|sessionPath|] == sessionPath
      ensures !IsPdfName(upload.name) ==>
        r == Failure(Wrap("Error in saving the pdf", PortalError("Invalid file type. Only PDFs are allowed", None)))
      ensures IsPdfName(upload.name) && r.Failure? ==>
        r == Failure(Wrap("Error in saving the pdf", write(Paths.Join(sessionPath, upload.name), upload.buffer).value))
    {
      if !EndsWith(Lower(upload.name), ".pdf") {
        return Failure(Wrap("Error in saving the pdf", PortalError("Invalid file type. Only PDFs are allowed", None)));
      }
      var savePath := Paths.Join(sessionPath, upload.name);
      var written := write(savePath, upload.buffer);
      if written.Some? {
        return Failure(Wrap("Error in saving the pdf", written.value));
      }
      if '/' !in upload.name {
        PdfNameCheck(upload.name);
        Paths.JoinName(sessionPath, upload.name);
        Paths.JoinRelative(sessionPath, upload.name);
      }
      r := Success(savePath);
    }

    /** `read_pdf`: `open` stands for `fitz.open` and each page's `get_text()`, giving the page
        texts or the failure raised while reading them. */
    method ReadPdf(pdfPath: string, open: string -> Result<seq<string>, Failure>) returns (r: Result<string, Failure>)
      ensures open(pdfPath).Failure? ==> r == Failure(Wrap("Error in reading the pdf", open(pdfPath).error))
      ensures open(pdfPath).Success? ==> r == Success(PdfText(open(pdfPath).value))
    {
      var doc := open(pdfPath);
      if doc.Failure? {
        return Failure(Wrap("Error in reading the pdf", doc.error));
      }
      var pages := doc.value;
      var textChunks: seq<string> := [];
      var pageNum := 1;
      while pageNum <= |pages|
        invariant 1 <= pageNum <= |pages| + 1
        invariant textChunks == Segments(pages[..pageNum - 1])
      {
        assert pages[..pageNum] == pages[..pageNum - 1] + [pages[pageNum - 1]];
        textChunks := textChunks + [PageSegment(pageNum, pages[pageNum - 1])];
        pageNum := pageNum + 1;
      }
      assert pages[..|pages|] == pages;
      r := Success(Join("\n", textChunks));
    }
  }
}

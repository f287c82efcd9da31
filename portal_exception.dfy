/** `DocumentPortalException` (exception/custom_exception.py): where the error happened, taken from
    the innermost frame of a traceback chain, and the two renderings `__str__` and `__repr__`. */
module PortalException {
  import opened Wrappers
  import opened Text
  import PythonRepr

  /** One traceback entry: the frame's file and line and the entry below it (`tb_next`). */
  datatype Traceback = Traceback(fileName: string, lineNo: int, next: Option<Traceback>)

  /** A raised exception: its type's name, its text and its `__traceback__`. */
  datatype Exc = Exc(typeName: string, text: string, traceback: Option<Traceback>)

  /** The triple `(type, value, traceback)` that `sys.exc_info()` returns. */
  datatype ExcInfo = ExcInfo(excType: Option<string>, excValue: Option<Exc>, tb: Option<Traceback>)

  /** What callers pass as `error_details`. */
  datatype ErrorDetails =
    | NoDetails                        // None
    | SysModule                        // the `sys` module: its `exc_info()` is the current context
    | ExcInfoProvider(info: ExcInfo)   // any other object with an `exc_info` attribute, and what calling it gives
    | RaisedException(exc: Exc)        // a BaseException instance
    | OtherObject                      // anything else

  /** The entries of a chain, outermost first, each linked to the next. */
  function Frames(tb: Traceback): (fs: seq<Traceback>)
    ensures |fs| >= 1 && fs[0] == tb
    ensures fs[|fs| - 1].next.None?
    ensures forall i :: 0 <= i < |fs| - 1 ==> fs[i].next == Some(fs[i + 1])
  {
    match tb.next
    case None => [tb]
    case Some(below) => [tb] + Frames(below)
  }

  /** Walks `tb_next` links to the innermost entry, where the error was raised. */
  method LastFrame(tb: Option<Traceback>) returns (last: Option<Traceback>)
    ensures tb.None? ==> last.None?
    ensures tb.Some? ==> last == Some(Frames(tb.value)[|Frames(tb.value)| - 1])
  {
    last := tb;
    if tb.None? {
      return;
    }
    ghost var fs := Frames(tb.value);
    ghost var k := 0;
    while last.Some? && last.value.next.Some?
      invariant 0 <= k < |fs| && last.Some? && fs[k..] == Frames(last.value)
      decreases |fs| - k
    {
      assert fs[k + 1..] == fs[k..][1..];
      last := last.value.next;
      k := k + 1;
    }
  }

  /** Which `(type, value, traceback)` the exception reports, from what it was given. */
  function ResolveDetails(details: ErrorDetails, current: ExcInfo): ExcInfo
  {
    match details
    case NoDetails => current
    case SysModule => current
    case ExcInfoProvider(info) => info
    case RaisedException(e) => ExcInfo(Some(e.typeName), Some(e), e.traceback)
    case OtherObject => current
  }

  const UnknownFile := "<unknown>"
  const TracebackHeader := "\nTraceback:\n"

  class DocumentPortalException {
    var fileName: string
    var lineNumber: int
    var errorMessage: string
    var tracebackStr: string

    /** `errorMessage` is `str(error_message)`, taken as already rendered; `formatException`
        stands for `''.join(traceback.format_exception(...))`. */
    constructor (errorMessage: string, details: ErrorDetails, current: ExcInfo, formatException: ExcInfo -> string)
      ensures this.errorMessage == errorMessage
      ensures ResolveDetails(details, current).tb.None? ==> fileName == UnknownFile && lineNumber == -1
      ensures ResolveDetails(details, current).tb.Some? ==>
        var fs := Frames(ResolveDetails(details, current).tb.value);
        fileName == fs[|fs| - 1].fileName && lineNumber == fs[|fs| - 1].lineNo
      ensures tracebackStr != "" ==> ResolveDetails(details, current).excType.Some? && ResolveDetails(details, current).tb.Some?
      ensures ResolveDetails(details, current).excType.Some? && ResolveDetails(details, current).tb.Some? ==>
        tracebackStr == formatException(ResolveDetails(details, current))
    {
      var info := ResolveDetails(details, current);
      var last := LastFrame(info.tb);
      fileName := if last.Some? then last.value.fileName else UnknownFile;
      lineNumber := if last.Some? then last.value.lineNo else -1;
      this.errorMessage := errorMessage;
      tracebackStr := if info.excType.Some? && info.tb.Some? then formatException(info) else "";
    }

    /** `__str__` */
    function Str(): string
      reads this
    {
      StrOf(fileName, lineNumber, errorMessage, tracebackStr)
    }

    /** `__repr__` */
    function Repr(): string
      reads this
    {
      ReprOf(fileName, lineNumber, errorMessage)
    }
  }

  function Headline(file: string, line: int, message: string): string
  {
    "Error in [" + file + "] at line [" + IntToString(line) + "] | Message: " + message
  }

  /** The text of `__str__`: the headline, then the traceback section when there is a traceback. */
  function StrOf(file: string, line: int, message: string, tracebackStr: string): (s: string)
    ensures |Headline(file, line, message)| <= |s| && s[..|Headline(file, line, message)|] == Headline(file, line, message)
    ensures s == Headline(file, line, message) <==> tracebackStr == ""
    ensures tracebackStr != "" ==> EndsWith(s, TracebackHeader + tracebackStr)
    ensures tracebackStr != "" ==> |s| == |Headline(file, line, message)| + |TracebackHeader| + |tracebackStr|
  {
    var base := Headline(file, line, message);
    if tracebackStr != "" then base + TracebackHeader + tracebackStr else base
  }

  const ReprOpen := "DocumentPortalException(file="
  const LineField := ", line="
  const MessageField := ", message="

  /** The text of `__repr__`. */
  function ReprOf(file: string, line: int, message: string): string
  {
    ReprOpen + (PythonRepr.Repr(file) + (LineField + (IntToString(line) + (MessageField + (PythonRepr.Repr(message) + ")")))))
  }

  function StripPrefix(p: string, s: string): Option<string>
  {
    if |p| <= |s| && s[..|p|] == p then Some(s[|p|..]) else None
  }

  /** How many decimal digits `s` starts with. */
  function LeadingDigits(s: string): (n: nat)
    ensures n <= |s| && AllDigits(s[..n])
    decreases |s|
  {
    if s == [] || !IsDigit(s[0]) then 0
    else
      var n := 1 + LeadingDigits(s[1..]);
      assert s[..n] == [s[0]] + s[1..][..n - 1];
      n
  }

  /** Reads an optionally negative decimal number at the start of `s`. */
  function ReadInt(s: string): Option<(int, string)>
  {
    var neg := |s| > 0 && s[0] == '-';
    var body := if neg then s[1..] else s;
    var n := LeadingDigits(body);
    if n == 0 then None
    else
      var v: int := DigitsValue(body[..n]);
      Some((if neg then -v else v, body[n..]))
  }

  lemma {:induction false} LeadingDigitsOf(d: string, rest: string)
    requires AllDigits(d)
    requires rest == [] || !IsDigit(rest[0])
    ensures LeadingDigits(d + rest) == |d|
    decreases |d|
  {
    if d != [] {
      assert (d + rest)[1..] == d[1..] + rest;
      LeadingDigitsOf(d[1..], rest);
    }
  }

  lemma ReadIntRendered(i: int, rest: string)
    requires rest == [] || !IsDigit(rest[0])
    ensures ReadInt(IntToString(i) + rest) == Some((i, rest))
  {
    if i < 0 {
      ReadNegativeRendered(-i, rest);
      assert IntToString(i) + rest == "-" + (NatToString(-i) + rest);
    } else {
      ReadNonNegativeRendered(i, rest);
    }
  }

  lemma ReadNonNegativeRendered(n: nat, rest: string)
    requires rest == [] || !IsDigit(rest[0])
    ensures ReadInt(NatToString(n) + rest) == Some((n, rest))
  {
    ReadDigitsRendered(n, rest);
  }

  lemma ReadNegativeRendered(n: nat, rest: string)
    requires n > 0
    requires rest == [] || !IsDigit(rest[0])
    ensures ReadInt("-" + (NatToString(n) + rest)) == Some((-(n as int), rest))
  {
    var s := "-" + (NatToString(n) + rest);
    ReadDigitsRendered(n, rest);
    assert s[0] == '-' && s[1..] == NatToString(n) + rest;
  }

  /** The digits of `n` followed by a non-digit are read as `n`, and the reading stops there. */
  lemma ReadDigitsRendered(n: nat, rest: string)
    requires rest == [] || !IsDigit(rest[0])
    ensures var d := NatToString(n);
      d[0] != '-' && LeadingDigits(d + rest) == |d| && DigitsValue((d + rest)[..|d|]) == n && (d + rest)[|d|..] == rest
  {
    var d := NatToString(n);
    NatToStringRoundTrip(n);
    LeadingDigitsOf(d, rest);
    assert d[0] != '-';
    assert (d + rest)[..|d|] == d && (d + rest)[|d|..] == rest;
  }

  lemma StripPrefixOf(p: string, rest: string)
    ensures StripPrefix(p, p + rest) == Some(rest)
  {
    assert (p + rest)[..|p|] == p && (p + rest)[|p|..] == rest;
  }

  /** Reads a `__repr__` text back into its file, line and message. */
  function ParseRepr(s: string): Option<(string, int, string)>
  {
    match StripPrefix(ReprOpen, s)
    case None => None
    case Some(afterOpen) =>
      match PythonRepr.ReadLiteral(afterOpen)
      case None => None
      case Some((file, afterFile)) => ParseLineAndMessage(file, afterFile)
  }

  function ParseLineAndMessage(file: string, s: string): Option<(string, int, string)>
  {
    match StripPrefix(LineField, s)
    case None => None
    case Some(s1) =>
      match ReadInt(s1)
      case None => None
      case Some((line, afterLine)) => ParseMessage(file, line, afterLine)
  }

  function ParseMessage(file: string, line: int, s: string): Option<(string, int, string)>
  {
    match StripPrefix(MessageField, s)
    case None => None
    case Some(s1) =>
      match PythonRepr.ReadLiteral(s1)
      case None => None
      case Some((message, rest)) => if rest == ")" then Some((file, line, message)) else None
  }

  lemma ParseMessageRendered(file: string, line: int, message: string)
    ensures ParseMessage(file, line, MessageField + (PythonRepr.Repr(message) + ")")) == Some((file, line, message))
  {
    StripPrefixOf(MessageField, PythonRepr.Repr(message) + ")");
    PythonRepr.ReprReadsBack(message, ")");
  }

  lemma ParseLineAndMessageRendered(file: string, line: int, rest: string)
    requires rest == [] || !IsDigit(rest[0])
    ensures ParseLineAndMessage(file, LineField + (IntToString(line) + rest)) == ParseMessage(file, line, rest)
  {
    StripPrefixOf(LineField, IntToString(line) + rest);
    ReadIntRendered(line, rest);
  }

  /** `__repr__` is unambiguous: file, line and message can be read back from it exactly,
      whatever quotes, backslashes or commas they contain. */
  lemma ReprRoundTrip(file: string, line: int, message: string)
    ensures ParseRepr(ReprOf(file, line, message)) == Some((file, line, message))
  {
    var tail := MessageField + (PythonRepr.Repr(message) + ")");
    var afterFile := LineField + (IntToString(line) + tail);
    StripPrefixOf(ReprOpen, PythonRepr.Repr(file) + afterFile);
    PythonRepr.ReprReadsBack(file, afterFile);
    ParseLineAndMessageRendered(file, line, tail);
    ParseMessageRendered(file, line, message);
  }
}

/** `repr()` of a Python string, as the `!r` conversion writes it, and a reader that takes such a
    literal back. Only ASCII control characters are escaped; see README for the non-ASCII case. */
module PythonRepr {
  import opened Wrappers
  import opened Text

  /** Python quotes with `'` unless the text holds a `'` and no `"`. */
  function QuoteFor(s: string): char
  {
    if '\'' in s && '"' !in s then '"' else '\''
  }

  predicate IsControl(c: char)
  {
    c < ' ' || c as int == 127
  }

  /** How one character appears inside a literal quoted with `q`. */
  function EscapeChar(c: char, q: char): string
  {
    if c == '\\' then "\\\\"
    else if c == q then ['\\', q]
    else if c == '\n' then "\\n"
    else if c == '\r' then "\\r"
    else if c == '\t' then "\\t"
    else if IsControl(c) then ['\\', 'x', HexDigit(c as int / 16), HexDigit(c as int % 16)]
    else [c]
  }

  function EscapeAll(s: string, q: char): string
    decreases |s|
  {
    if s == [] then [] else EscapeChar(s[0], q) + EscapeAll(s[1..], q)
  }

  /** `repr(s)` */
  function Repr(s: string): string
  {
    var q := QuoteFor(s);
    [q] + EscapeAll(s, q) + [q]
  }

  function Prepend(c: char, r: Option<(string, string)>): Option<(string, string)>
  {
    match r
    case None => None
    case Some((text, rest)) => Some(([c] + text, rest))
  }

  /** Reads the body of a literal quoted with `q`, up to and including its closing quote;
      gives the text it denotes and what follows the literal. */
  function ReadBody(s: string, q: char): Option<(string, string)>
    decreases |s|
  {
    if s == [] then None
    else if s[0] == q then Some(("", s[1..]))
    else if s[0] != '\\' then Prepend(s[0], ReadBody(s[1..], q))
    else if |s| < 2 then None
    else if s[1] == '\\' || s[1] == '\'' || s[1] == '"' then Prepend(s[1], ReadBody(s[2..], q))
    else if s[1] == 'n' then Prepend('\n', ReadBody(s[2..], q))
    else if s[1] == 'r' then Prepend('\r', ReadBody(s[2..], q))
    else if s[1] == 't' then Prepend('\t', ReadBody(s[2..], q))
    else if s[1] == 'x' && |s| >= 4 && IsHexDigit(s[2]) && IsHexDigit(s[3]) then
      Prepend((HexValue(s[2]) * 16 + HexValue(s[3])) as char, ReadBody(s[4..], q))
    else None
  }

  /** Reads one quoted literal at the start of `s`. */
  function ReadLiteral(s: string): Option<(string, string)>
  {
    if |s| > 0 && (s[0] == '\'' || s[0] == '"') then ReadBody(s[1..], s[0]) else None
  }

  lemma EscapeCharReads(c: char, q: char, tail: string, text: string, rest: string)
    requires q == '\'' || q == '"'
    requires ReadBody(tail, q) == Some((text, rest))
    ensures ReadBody(EscapeChar(c, q) + tail, q) == Some(([c] + text, rest))
  {
    var s := EscapeChar(c, q) + tail;
    if IsControl(c) && c != '\n' && c != '\r' && c != '\t' {
      var v := c as int;
      assert s[4..] == tail;
      assert HexValue(HexDigit(v / 16)) == v / 16;
      assert HexValue(HexDigit(v % 16)) == v % 16;
      assert (HexValue(s[2]) * 16 + HexValue(s[3])) as char == c;
    } else if |EscapeChar(c, q)| == 2 {
      assert s[2..] == tail;
    } else {
      assert s[1..] == tail;
    }
  }

  /** The reader undoes the escaping: the body of an escaped text, its closing quote and any
      remainder read back as the text and the remainder. */
  lemma {:induction false} ReadBodyEscaped(x: string, q: char, rest: string)
    requires q == '\'' || q == '"'
    ensures ReadBody(EscapeAll(x, q) + ([q] + rest), q) == Some((x, rest))
    decreases |x|
  {
    if x == [] {
      assert EscapeAll(x, q) + ([q] + rest) == [q] + rest;
    } else {
      ReadBodyEscaped(x[1..], q, rest);
      var tail := EscapeAll(x[1..], q) + ([q] + rest);
      EscapeCharReads(x[0], q, tail, x[1..], rest);
      ConcatAssoc(EscapeChar(x[0], q), EscapeAll(x[1..], q), [q] + rest);
      assert [x[0]] + x[1..] == x;
    }
  }

  lemma ConcatAssoc(a: string, b: string, c: string)
    ensures (a + b) + c == a + (b + c)
  {
  }

  /** `repr` loses nothing: reading the literal back gives the text, and the reader stops
      exactly at the closing quote. */
  lemma ReprReadsBack(x: string, rest: string)
    ensures ReadLiteral(Repr(x) + rest) == Some((x, rest))
  {
    var q := QuoteFor(x);
    var s := Repr(x) + rest;
    assert s[1..] == EscapeAll(x, q) + ([q] + rest);
    ReadBodyEscaped(x, q, rest);
  }
}

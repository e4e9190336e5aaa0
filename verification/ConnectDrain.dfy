// The HTTP CONNECT client of hunt/conn.py: retries after an error answer, and the drain that must leave
// the stream exactly behind the error body (chunked coding: section 7.1 of RFC 9112). The stream is the
// text still to come, followed by its end; bytes are ASCII characters.

module ConnectDrain {
  import opened Wrappers
  import opened PyText

  const CRLF: string := "\r\n"
  const BLANK_LINE: string := "\r\n\r\n"
  const HTTP_CONNECT_RETRIES: nat := 2

  // ---- Reading ----

  /** The length of the first line with its newline, or of everything when there is none. */
  function LineLength(s: string): (n: nat)
    ensures n <= |s| && (s != "" ==> n > 0)
  {
    if s == "" then 0 else if s[0] == '\n' then 1 else 1 + LineLength(s[1..])
  }

  /** Where the first blank line ends. */
  function HeaderEnd(s: string): (end: Option<nat>)
    ensures end.Some? ==> 4 <= end.value <= |s|
  {
    if BLANK_LINE <= s then Some(4)
    else if s == "" then None
    else match HeaderEnd(s[1..])
      case None => None
      case Some(n) => Some(n + 1)
  }

  /** The reader's view of the connection. */
  class Stream {
    var rest: string

    constructor (text: string)
      ensures rest == text
    {
      rest := text;
    }

    /** A short read at the end of the stream drops what had arrived; a negative count reads nothing. */
    method ReadExactly(n: int) returns (ok: bool)
      modifies this
      ensures ok <==> 0 <= n <= |old(rest)|
      ensures rest == AfterExactly(n, old(rest))
    {
      ok := 0 <= n <= |rest|;
      if ok {
        rest := rest[n..];
      } else if n >= 0 {
        rest := "";
      }
    }

    method ReadLine() returns (line: string)
      modifies this
      ensures line == old(rest)[..LineLength(old(rest))] && rest == old(rest)[LineLength(old(rest))..]
    {
      var n := 0;
      while n < |rest| && (n == 0 || rest[n - 1] != '\n')
        invariant n <= |rest| && rest == old(rest)
        invariant LineLength(rest) == if n > 0 && rest[n - 1] == '\n' then n else n + LineLength(rest[n..])
        modifies {}
      {
        assert rest[n..][1..] == rest[n + 1..];
        n := n + 1;
      }
      line := rest[..n];
      rest := rest[n..];
    }

    method ReadHeader() returns (header: Option<string>)
      modifies this
      ensures match HeaderEnd(old(rest))
              case None => header == None && rest == ""
              case Some(n) => header == Some(old(rest)[..n]) && rest == old(rest)[n..]
    {
      var end := HeaderEnd(rest);
      if end.None? {
        rest := "";
        return None;
      }
      header := Some(rest[..end.value]);
      rest := rest[end.value..];
    }

    /** One chunked body. Any error stops the drain where it stands. */
    method DrainChunks()
      modifies this
      ensures rest == AfterChunks(old(rest))
    {
      while true
        invariant AfterChunks(rest) == AfterChunks(old(rest))
        decreases |rest|
      {
        if rest == "" {
          return;
        }
        var line := ReadLine();
        var size := ParseInt(Strip(line), 16);
        if size.None? {
          return;
        }
        if size.value == 0 {
          var last := ReadLine();
          return;
        }
        var ok := ReadExactly(size.value + 2);
        if !ok {
          return;
        }
      }
    }

    method DrainBody(header: string)
      modifies this
      ensures rest == AfterBody(header, old(rest))
    {
      match BodyOf(header)
      case Unreadable =>
      case Sized(n) =>
        var ok := ReadExactly(n);
      case Chunked =>
        DrainChunks();
      case Empty =>
    }

    method HttpConnect(withUser: bool) returns (verdict: Verdict)
      modifies this
      ensures (verdict, rest) == Negotiate(old(rest), withUser, HTTP_CONNECT_RETRIES)
    {
      var left := HTTP_CONNECT_RETRIES;
      while left > 0
        invariant Negotiate(rest, withUser, left) == Negotiate(old(rest), withUser, HTTP_CONNECT_RETRIES)
      {
        NegotiateOnce(rest, withUser, left);
        var resp := ReadHeader();
        if resp.None? {
          return Broken;
        }
        var line := StatusLine(resp.value);
        if Contains(line, "200") {
          return Tunnel;
        }
        var code := StatusCode(line);
        if code == 407 && withUser {
          DrainBody(resp.value);
        } else if Transient(code) && left > 1 {
          DrainBody(resp.value);
        } else {
          return Refused;
        }
        left := left - 1;
      }
      return Refused;
    }
  }

  lemma NegotiateOnce(s: string, withUser: bool, tries: nat)
    requires tries > 0
    ensures match HeaderEnd(s)
            case None => Negotiate(s, withUser, tries) == (Broken, "")
            case Some(n) =>
              var line := StatusLine(s[..n]);
              Negotiate(s, withUser, tries) ==
                if Contains(line, "200") then (Tunnel, s[n..])
                else if (StatusCode(line) == 407 && withUser) || (Transient(StatusCode(line)) && tries > 1) then
                  Negotiate(AfterBody(s[..n], s[n..]), withUser, tries - 1)
                else (Refused, s[n..])
  {
  }

  // ---- What a header says ----

  function SplitCrlf(s: string): (lines: seq<string>)
    ensures |lines| >= 1
    decreases |s|
  {
    if CRLF <= s then [""] + SplitCrlf(s[2..])
    else if s == "" then [""]
    else var rest := SplitCrlf(s[1..]); [[s[0]] + rest[0]] + rest[1..]
  }

  datatype Body = Unreadable | Sized(n: nat) | Chunked | Empty

  /** The first Content-Length line, read as an integer. */
  function LengthLine(lines: seq<string>): Option<Option<int>> {
    if lines == [] then None
    else if HasPrefix(Lower(lines[0]), "content-length:") then Some(ParseInt(Strip(Partition(lines[0], ':').1), 10))
    else LengthLine(lines[1..])
  }

  function BodyOf(header: string): Body {
    match LengthLine(SplitCrlf(header))
    case Some(None) => Unreadable
    case Some(Some(n)) =>
      if n > 0 then Sized(n) else if SaysChunked(header) then Chunked else Empty
    case None => if SaysChunked(header) then Chunked else Empty
  }

  predicate SaysChunked(header: string) {
    Contains(Lower(header), "transfer-encoding: chunked")
  }

  function Words(s: string, word: string): seq<string> {
    if s == "" then if word == "" then [] else [word]
    else if IsSpace(s[0]) then (if word == "" then [] else [word]) + Words(s[1..], "")
    else Words(s[1..], word + [s[0]])
  }

  function StatusLine(header: string): string {
    SplitCrlf(header)[0]
  }

  function StatusCode(line: string): int {
    var words := Words(line, "");
    if |words| < 2 then 0
    else match ParseInt(words[1], 10)
      case None => 0
      case Some(n) => n
  }

  predicate Transient(code: int) {
    code == 429 || code == 502 || code == 503 || code == 504
  }

  // ---- What is left on the stream ----

  function AfterExactly(n: int, s: string): string {
    if n < 0 then s else if n <= |s| then s[n..] else ""
  }

  function AfterChunks(s: string): string
    decreases |s|
  {
    if s == "" then s
    else
      var line, tail := s[..LineLength(s)], s[LineLength(s)..];
      match ParseInt(Strip(line), 16)
      case None => tail
      case Some(n) =>
        if n == 0 then tail[LineLength(tail)..]
        else if 0 <= n + 2 <= |tail| then AfterChunks(tail[n + 2..])
        else AfterExactly(n + 2, tail)
  }

  function AfterBody(header: string, s: string): string {
    match BodyOf(header)
    case Unreadable => s
    case Sized(n) => AfterExactly(n, s)
    case Chunked => AfterChunks(s)
    case Empty => s
  }

  datatype Verdict = Tunnel | Refused | Broken

  function Negotiate(s: string, withUser: bool, tries: nat): (Verdict, string)
    decreases tries
  {
    if tries == 0 then (Refused, s)
    else match HeaderEnd(s)
      case None => (Broken, "")
      case Some(n) =>
        var header, tail := s[..n], s[n..];
        var line := StatusLine(header);
        if Contains(line, "200") then (Tunnel, tail)
        else if (StatusCode(line) == 407 && withUser) || (Transient(StatusCode(line)) && tries > 1) then
          Negotiate(AfterBody(header, tail), withUser, tries - 1)
        else (Refused, tail)
  }

  // ---- Chunked bodies ----

  /** The value of a run of hexadecimal digits, independent of the parser. */
  function HexValue(t: string): nat {
    if t == "" then 0 else HexValue(t[..|t| - 1]) * 16 + DigitOf(t[|t| - 1])
  }

  predicate HexText(t: string) {
    t != "" && forall c <- t :: HexDigit(c)
  }

  /** A chunk: its size in hexadecimal, either case, leading zeros allowed, its extensions, its data. */
  datatype Chunk = Chunk(size: string, extension: string, data: string)

  /** A chunked body: the chunks, the last chunk's zeros and extensions, and the trailer fields. */
  datatype ChunkedBody = ChunkedBody(chunks: seq<Chunk>, last: Chunk, trailers: seq<string>)

  /** White space and then a semicolon, as every extension begins. */
  predicate Semicolon(x: string) {
    x != "" && (x[0] == ';' || ((x[0] == ' ' || x[0] == '\t') && Semicolon(x[1..])))
  }

  predicate IsExtension(x: string) {
    x == "" || (Semicolon(x) && '\n' !in x)
  }

  predicate WellFormed(c: Chunk) {
    HexText(c.size) && HexValue(c.size) == |c.data| && IsExtension(c.extension)
  }

  predicate IsTrailer(line: string) {
    line != "" && '\n' !in line
  }

  predicate IsChunked(b: ChunkedBody) {
    && (forall c <- b.chunks :: WellFormed(c) && c.data != "")
    && WellFormed(b.last) && b.last.data == ""
    && (forall line <- b.trailers :: IsTrailer(line))
  }

  /** No extensions and no trailer. */
  predicate Plain(b: ChunkedBody) {
    (forall c <- b.chunks :: c.extension == "") && b.last.extension == "" && b.trailers == []
  }

  function OnWire(c: Chunk, more: string): string {
    c.size + c.extension + CRLF + (c.data + CRLF + more)
  }

  /** Lines, each with its line end, and the blank line that closes them. */
  function Lines(lines: seq<string>): string {
    if lines == [] then CRLF else lines[0] + CRLF + Lines(lines[1..])
  }

  function Closing(last: Chunk, trailers: seq<string>): string {
    last.size + last.extension + CRLF + Lines(trailers)
  }

  function Wire(chunks: seq<Chunk>, closing: string): string {
    if chunks == [] then closing else OnWire(chunks[0], Wire(chunks[1..], closing))
  }

  function Encoded(b: ChunkedBody): string {
    Wire(b.chunks, Closing(b.last, b.trailers))
  }

  predicate HexDigit(c: char) {
    '0' <= c <= '9' || 'a' <= c <= 'f' || 'A' <= c <= 'F'
  }

  lemma OneHexDigit(c: char)
    requires HexDigit(c)
    ensures DigitOf(c) < 16 && c != '_' && ParseDigits([c], 16, 0, true) == Some(DigitOf(c))
  {
    assert [c][1..] == "";
  }

  lemma {:induction false} HexParses(t: string)
    requires HexText(t)
    ensures ParseDigits(t, 16, 0, true) == Some(HexValue(t))
  {
    var init, last := t[..|t| - 1], t[|t| - 1];
    assert last in t;
    OneHexDigit(last);
    if init == "" {
      assert t == [last];
      assert HexValue(t) == HexValue("") * 16 + DigitOf(last);
    } else {
      assert forall c <- init :: c in t;
      HexParses(init);
      ParseDigitsSnoc(init, last, 16, 0, true);
      assert t == init + [last];
    }
  }

  lemma {:induction false} LineFirst(t: string, x: string)
    requires '\n' !in t
    ensures LineLength(t + CRLF + x) == |t| + 2
  {
    var s := t + CRLF + x;
    if t == "" {
      assert s[0] == '\r' && s[1..][0] == '\n';
    } else {
      assert s[0] == t[0] && s[1..] == t[1..] + CRLF + x;
      LineFirst(t[1..], x);
    }
  }

  lemma {:induction false} StripRightBlank(t: string, tail: string)
    requires t != "" && !IsSpace(t[|t| - 1]) && forall c <- tail :: IsSpace(c)
    ensures StripRight(t + tail) == t
  {
    var s := t + tail;
    if tail == "" {
      assert s == t;
    } else {
      assert tail[|tail| - 1] in tail;
      assert s[..|s| - 1] == t + tail[..|tail| - 1];
      StripRightBlank(t, tail[..|tail| - 1]);
    }
  }

  lemma CrlfIsBlank()
    ensures forall c <- CRLF :: IsSpace(c)
  {
    assert forall c <- CRLF :: c == '\r' || c == '\n';
  }

  /** A size line gives back its value. */
  lemma SizeLine(t: string)
    requires HexText(t)
    ensures ParseInt(Strip(t + CRLF), 16) == Some(HexValue(t)) && '\n' !in t
  {
    assert t[0] in t && t[|t| - 1] in t;
    var s := t + CRLF;
    assert StripLeft(s) == s;
    CrlfIsBlank();
    StripRightBlank(t, CRLF);
    StripNothing(t);
    assert |t| >= 2 ==> t[1] in t;
    HexParses(t);
  }

  lemma FirstLine(line: string, after: string)
    requires '\n' !in line
    ensures var s := line + CRLF + after;
            s != "" && s[..LineLength(s)] == line + CRLF && s[LineLength(s)..] == after
  {
    LineFirst(line, after);
  }

  /** The lower-case rendering, for which every chunk length has a size text. */
  function Hex(n: nat): string {
    var d := n % 16;
    var c := if d < 10 then ('0' as int + d) as char else ('a' as int + d - 10) as char;
    if n < 16 then [c] else Hex(n / 16) + [c]
  }

  lemma {:induction false} HexIsText(n: nat)
    ensures HexText(Hex(n)) && HexValue(Hex(n)) == n
  {
    if n >= 16 {
      HexIsText(n / 16);
      assert Hex(n)[..|Hex(n)| - 1] == Hex(n / 16);
    } else {
      assert Hex(n)[..0] == "";
    }
  }

  // ---- What extensions and trailers do to the drain ----

  lemma {:induction false} StripRightKeeps(p: string, x: string)
    requires p != "" && !IsSpace(p[|p| - 1])
    ensures p <= StripRight(p + x)
    decreases |x|
  {
    var s := p + x;
    if x == "" {
      assert s == p;
    } else {
      assert s[..|s| - 1] == p + x[..|x| - 1];
      StripRightKeeps(p, x[..|x| - 1]);
    }
  }

  lemma StripKeeps(p: string, x: string)
    requires p != "" && !IsSpace(p[0]) && !IsSpace(p[|p| - 1])
    ensures p <= Strip(p + x)
  {
    assert StripLeft(p + x) == p + x;
    StripRightKeeps(p, x);
  }

  lemma {:induction false} StopsAt(t: string, rest: string, acc: nat, needDigit: bool)
    requires forall c <- t :: HexDigit(c)
    requires rest != "" && (rest[0] == ';' || rest[0] == ' ' || rest[0] == '\t')
    ensures ParseDigits(t + rest, 16, acc, needDigit) == None
  {
    var s := t + rest;
    if t != "" {
      assert t[0] in t && s[0] == t[0] && s[1..] == t[1..] + rest;
      assert forall c <- t[1..] :: c in t;
      StopsAt(t[1..], rest, acc * 16 + DigitOf(t[0]), false);
    }
  }

  /** The part of an extension that stripping the line leaves. */
  function ThroughSemicolon(x: string): (y: string)
    requires Semicolon(x)
    ensures y <= x && y != "" && y[|y| - 1] == ';' && y[0] == x[0]
  {
    if x[0] == ';' then [x[0]] else [x[0]] + ThroughSemicolon(x[1..])
  }

  /** A text that goes on behind its digits with an extension is not an integer. */
  lemma ExtendedStops(size: string, y: string, text: string)
    requires HexText(size) && size + y <= text
    requires y != "" && y[|y| - 1] == ';' && (y[0] == ';' || y[0] == ' ' || y[0] == '\t')
    ensures ParseInt(text, 16) == None
  {
    var p := size + y;
    assert size[0] in size && p[0] == size[0] && p[|p| - 1] == ';';
    assert text == p + text[|p|..];
    StripKeeps(p, text[|p|..]);
    var t := Strip(text);
    assert t == size + (y + t[|p|..]);
    assert t[0] == size[0];
    assert |size| >= 2 ==> size[1] in size && t[1] == size[1];
    assert |size| == 1 ==> t[1] == y[0];
    StopsAt(size, y + t[|p|..], 0, true);
  }

  /** A size line with an extension is not an integer to the drain. */
  lemma ExtendedSizeLine(size: string, extension: string)
    requires HexText(size) && Semicolon(extension)
    ensures ParseInt(Strip(size + extension + CRLF), 16) == None
  {
    var y := ThroughSemicolon(extension);
    assert size[0] in size && (size + y)[0] == size[0] && (size + y)[|size + y| - 1] == ';';
    assert size + extension + CRLF == size + y + (extension[|y|..] + CRLF);
    StripKeeps(size + y, extension[|y|..] + CRLF);
    ExtendedStops(size, y, Strip(size + extension + CRLF));
  }

  lemma NoNewline(size: string, extension: string)
    requires HexText(size) && IsExtension(extension)
    ensures '\n' !in size + extension
  {
    SizeLine(size);
  }

  lemma OneChunk(c: Chunk, more: string)
    requires WellFormed(c)
    ensures AfterChunks(OnWire(c, more)) ==
      if c.extension != "" then c.data + CRLF + more
      else if c.data == "" then (CRLF + more)[LineLength(CRLF + more)..]
      else AfterChunks(more)
  {
    var after := c.data + CRLF + more;
    NoNewline(c.size, c.extension);
    FirstLine(c.size + c.extension, after);
    if c.extension != "" {
      ExtendedSizeLine(c.size, c.extension);
    } else {
      SizeLine(c.size);
      assert c.size + c.extension == c.size;
      assert after[|c.data| + 2..] == more;
      assert c.data == "" ==> after == CRLF + more;
    }
  }

  lemma LastChunk(last: Chunk, after: string)
    requires WellFormed(last) && last.data == ""
    ensures AfterChunks(last.size + last.extension + CRLF + after) ==
      if last.extension != "" then after else after[LineLength(after)..]
  {
    NoNewline(last.size, last.extension);
    FirstLine(last.size + last.extension, after);
    if last.extension != "" {
      ExtendedSizeLine(last.size, last.extension);
    } else {
      SizeLine(last.size);
      assert last.size + last.extension == last.size;
    }
  }

  /** What the drain leaves of a body: everything behind the first line with an extension, and all
      trailers but the first with the blank line behind them. */
  function Leftover(chunks: seq<Chunk>, last: Chunk, trailers: seq<string>): string {
    if chunks != [] then
      if chunks[0].extension != "" then chunks[0].data + CRLF + Wire(chunks[1..], Closing(last, trailers))
      else Leftover(chunks[1..], last, trailers)
    else if last.extension != "" then Lines(trailers)
    else if trailers != [] then Lines(trailers[1..])
    else ""
  }

  lemma Regroup(a: string, b: string, c: string)
    ensures (a + b) + c == a + (b + c)
  {
  }

  lemma TailMoves(c: Chunk, more: string, tail: string)
    ensures (c.data + CRLF + more) + tail == c.data + CRLF + (more + tail)
    ensures OnWire(c, more) + tail == OnWire(c, more + tail)
  {
    Regroup(c.data + CRLF, more, tail);
    Regroup(c.size + c.extension + CRLF, c.data + CRLF + more, tail);
  }

  lemma HeadLeaves(c: Chunk, more: string, tail: string)
    requires WellFormed(c) && c.data != ""
    ensures AfterChunks(OnWire(c, more) + tail) ==
      if c.extension != "" then (c.data + CRLF + more) + tail else AfterChunks(more + tail)
  {
    TailMoves(c, more, tail);
    OneChunk(c, more + tail);
  }

  /** One line is read behind the last chunk. */
  lemma LineGoes(trailers: seq<string>, tail: string)
    requires forall line <- trailers :: IsTrailer(line)
    ensures var after := Lines(trailers) + tail;
            after[LineLength(after)..] == (if trailers == [] then "" else Lines(trailers[1..])) + tail
  {
    if trailers == [] {
      FirstLine("", tail);
      assert Lines(trailers) + tail == "" + CRLF + tail;
    } else {
      assert trailers[0] in trailers;
      Regroup(trailers[0] + CRLF, Lines(trailers[1..]), tail);
      FirstLine(trailers[0], Lines(trailers[1..]) + tail);
    }
  }

  lemma CloseLeaves(last: Chunk, trailers: seq<string>, tail: string)
    requires WellFormed(last) && last.data == "" && forall line <- trailers :: IsTrailer(line)
    ensures AfterChunks(Closing(last, trailers) + tail) == Leftover([], last, trailers) + tail
  {
    Regroup(last.size + last.extension + CRLF, Lines(trailers), tail);
    LastChunk(last, Lines(trailers) + tail);
    LineGoes(trailers, tail);
  }

  lemma {:induction false} DrainLeaves(chunks: seq<Chunk>, last: Chunk, trailers: seq<string>, tail: string)
    requires IsChunked(ChunkedBody(chunks, last, trailers))
    ensures AfterChunks(Wire(chunks, Closing(last, trailers)) + tail) == Leftover(chunks, last, trailers) + tail
    decreases |chunks|
  {
    if chunks == [] {
      CloseLeaves(last, trailers, tail);
    } else {
      assert chunks[0] in chunks && forall d <- chunks[1..] :: d in chunks;
      HeadLeaves(chunks[0], Wire(chunks[1..], Closing(last, trailers)), tail);
      DrainLeaves(chunks[1..], last, trailers, tail);
    }
  }

  lemma {:induction false} NothingLeft(chunks: seq<Chunk>, last: Chunk, trailers: seq<string>)
    ensures Leftover(chunks, last, trailers) == "" <==> Plain(ChunkedBody(chunks, last, trailers))
    decreases |chunks|
  {
    if chunks == [] {
      assert |Lines(trailers)| >= 2 && (trailers != [] ==> |Lines(trailers[1..])| >= 2);
    } else {
      NothingLeft(chunks[1..], last, trailers);
      assert forall c <- chunks :: c == chunks[0] || c in chunks[1..];
      assert chunks[0] in chunks && forall c <- chunks[1..] :: c in chunks;
    }
  }

  /** Draining a chunked body leaves exactly what follows it if and only if the body has neither an
      extension, on whatever chunk, nor a trailer; otherwise more is left. */
  lemma DrainIsExact(b: ChunkedBody, tail: string)
    requires IsChunked(b)
    ensures AfterChunks(Encoded(b) + tail) == tail <==> Plain(b)
    ensures !Plain(b) ==> |AfterChunks(Encoded(b) + tail)| > |tail|
  {
    var left := Leftover(b.chunks, b.last, b.trailers);
    DrainLeaves(b.chunks, b.last, b.trailers, tail);
    NothingLeft(b.chunks, b.last, b.trailers);
    assert left == "" ==> left + tail == tail;
    assert |left + tail| == |left| + |tail|;
  }

  // ---- The negotiation ----

  predicate IsHeader(h: string) {
    HeaderEnd(h) == Some(|h|)
  }

  lemma {:induction false} HeaderFirst(h: string, x: string)
    requires HeaderEnd(h).Some?
    ensures HeaderEnd(h + x) == HeaderEnd(h)
  {
    var s := h + x;
    if BLANK_LINE <= h {
      assert s[..4] == h[..4];
    } else {
      assert s[..4] == h[..4];
      assert s[1..] == h[1..] + x;
      HeaderFirst(h[1..], x);
    }
  }

  /** The body that a header announces. */
  ghost predicate IsBody(header: string, body: string) {
    match BodyOf(header)
    case Unreadable => false
    case Sized(n) => |body| == n
    case Chunked => exists b :: IsChunked(b) && Plain(b) && body == Encoded(b)
    case Empty => body == ""
  }

  lemma BodyDrained(header: string, body: string, tail: string)
    requires IsBody(header, body)
    ensures AfterBody(header, body + tail) == tail
  {
    match BodyOf(header)
    case Chunked =>
      var b :| IsChunked(b) && Plain(b) && body == Encoded(b);
      DrainIsExact(b, tail);
    case Sized(n) =>
      assert (body + tail)[|body|..] == tail;
    case Empty =>
      assert body + tail == tail;
    case Unreadable =>
  }

  predicate Retried(header: string, withUser: bool) {
    var line := StatusLine(header);
    !Contains(line, "200") && ((StatusCode(line) == 407 && withUser) || Transient(StatusCode(line)))
  }

  lemma HeaderRead(h: string, x: string)
    requires IsHeader(h)
    ensures HeaderEnd(h + x) == Some(|h|) && (h + x)[..|h|] == h && (h + x)[|h|..] == x
  {
    HeaderFirst(h, x);
  }

  /** After a retried answer with a complete body the second answer decides, and a tunnel starts with
      exactly the bytes behind its header. */
  lemma RetryStaysInStep(first: string, body: string, second: string, tail: string, withUser: bool)
    requires IsHeader(first) && Retried(first, withUser) && IsBody(first, body) && IsHeader(second)
    ensures Negotiate(first + (body + (second + tail)), withUser, HTTP_CONNECT_RETRIES)
         == Negotiate(second + tail, withUser, 1)
    ensures Contains(StatusLine(second), "200") ==>
      Negotiate(first + (body + (second + tail)), withUser, HTTP_CONNECT_RETRIES) == (Tunnel, tail)
  {
    HeaderRead(first, body + (second + tail));
    BodyDrained(first, body, second + tail);
    HeaderRead(second, tail);
  }

  // ---- Headers as servers write them ----

  lemma {:induction false} SplitAtCrlf(a: string, b: string)
    requires '\r' !in a
    ensures SplitCrlf(a + CRLF + b) == [a] + SplitCrlf(b)
  {
    var s := a + CRLF + b;
    if a == "" {
      assert s[..2] == CRLF && s[2..] == b;
    } else {
      assert s[0] == a[0] && a[0] in a && s[1..] == a[1..] + CRLF + b;
      SplitAtCrlf(a[1..], b);
      assert [a[0]] + a[1..] == a;
    }
  }

  function EndAfter(n: nat, b: string): Option<nat> {
    if CRLF <= b then Some(n + 4)
    else match HeaderEnd(b) case None => None case Some(m) => Some(n + 2 + m)
  }

  lemma {:induction false} EndAtCrlf(a: string, b: string)
    requires '\r' !in a
    ensures HeaderEnd(a + CRLF + b) == EndAfter(|a|, b)
  {
    var s := a + CRLF + b;
    if a == "" {
      assert s[2..] == b && s[0] == '\r' && s[1] == '\n';
      assert BLANK_LINE <= s <==> CRLF <= b;
      if !(CRLF <= b) {
        assert s[1..][1..] == b && s[1..][0] == '\n';
      }
    } else {
      assert s[0] == a[0] && a[0] in a && s[1..] == a[1..] + CRLF + b;
      EndAtCrlf(a[1..], b);
    }
  }

  predicate IsLine(line: string) {
    line != "" && '\r' !in line
  }

  predicate AreLines(lines: seq<string>) {
    forall line <- lines :: IsLine(line)
  }

  lemma {:induction false} LinesSplit(lines: seq<string>)
    requires AreLines(lines)
    ensures SplitCrlf(Lines(lines)) == lines + ["", ""]
  {
    if lines == [] {
      assert CRLF[2..] == "";
    } else {
      assert lines[0] in lines && forall l <- lines[1..] :: l in lines;
      LinesSplit(lines[1..]);
      SplitAtCrlf(lines[0], Lines(lines[1..]));
      assert [lines[0]] + (lines[1..] + ["", ""]) == lines + ["", ""];
    }
  }

  lemma {:induction false} LinesEnd(lines: seq<string>)
    requires lines != [] && AreLines(lines)
    ensures IsHeader(Lines(lines))
  {
    assert lines[0] in lines && forall l <- lines[1..] :: l in lines;
    EndAtCrlf(lines[0], Lines(lines[1..]));
    if lines[1..] != [] {
      LinesEnd(lines[1..]);
      Regroup(lines[1], CRLF, Lines(lines[1..][1..]));
      NoCrlfYet(lines[1], CRLF + Lines(lines[1..][1..]));
    }
  }

  /** A header written line by line ends at its blank line and splits into those lines. */
  lemma HeaderParts(lines: seq<string>)
    requires lines != [] && AreLines(lines)
    ensures IsHeader(Lines(lines)) && StatusLine(Lines(lines)) == lines[0]
    ensures SplitCrlf(Lines(lines)) == lines + ["", ""]
  {
    LinesEnd(lines);
    LinesSplit(lines);
  }

  lemma NoCrlfYet(field: string, b: string)
    requires IsLine(field)
    ensures !(CRLF <= field + b)
  {
    assert field[0] in field && (field + b)[0] == field[0] && CRLF[0] == '\r';
  }

  lemma {:induction false} FirstWord(word: string, a: string, b: string)
    requires word + a != "" && forall c <- a :: !IsSpace(c)
    ensures Words(a + " " + b, word) == [word + a] + Words(b, "")
    decreases |a|
  {
    var s := a + " " + b;
    if a == "" {
      assert s[1..] == b && word + a == word;
    } else {
      assert s[0] == a[0] && a[0] in a && s[1..] == a[1..] + " " + b;
      assert word + [a[0]] + a[1..] == word + a;
      assert forall c <- a[1..] :: c in a;
      FirstWord(word + [a[0]], a[1..], b);
    }
  }

  function Status(code: nat, reason: string): string {
    "HTTP/1.1" + " " + (Decimal(code) + " " + reason)
  }

  lemma StatusRead(code: nat, reason: string)
    ensures StatusCode(Status(code, reason)) == code
  {
    FirstWord("", "HTTP/1.1", Decimal(code) + " " + reason);
    assert "" + "HTTP/1.1" == "HTTP/1.1";
    FirstWord("", Decimal(code), reason);
    assert "" + Decimal(code) == Decimal(code);
    ParseIntDecimal(code);
  }

  /** The field name may be in any case. */
  lemma LengthFieldRead(name: string, n: nat)
    requires Lower(name) == "content-length"
    ensures var field := name + ":" + (" " + Decimal(n));
            && HasPrefix(Lower(field), "content-length:")
            && ParseInt(Strip(Partition(field, ':').1), 10) == Some(n)
            && '\r' !in field
  {
    var d := Decimal(n);
    var field := name + ":" + (" " + d);
    assert |name| == 14;
    forall i | 0 <= i < |name|
      ensures name[i] != ':' && name[i] != '\r'
    {
      assert LowerChar(name[i]) == Lower(name)[i] == "content-length"[i];
    }
    assert Lower(field)[..15] == "content-length" + ":" by {
      assert forall i :: 0 <= i < 14 ==> Lower(field)[i] == Lower(name)[i];
    }
    PartitionFirst(name, " " + d, ':');
    assert name + [':'] + (" " + d) == field;
    assert (" " + d)[1..] == d && d[0] in d && d[|d| - 1] in d;
    assert StripLeft(" " + d) == StripLeft(d) == d;
    ParseIntDecimal(n);
  }

  predicate IsLengthField(line: string) {
    HasPrefix(Lower(line), "content-length:")
  }

  /** The first Content-Length line counts, wherever it stands. */
  lemma {:induction false} LengthAt(before: seq<string>, field: string, after: seq<string>, n: nat)
    requires (forall line <- before :: !IsLengthField(line)) && IsLengthField(field)
    requires ParseInt(Strip(Partition(field, ':').1), 10) == Some(n)
    ensures LengthLine(before + ([field] + after)) == Some(Some(n))
  {
    var lines := before + ([field] + after);
    if before == [] {
      assert lines[0] == field;
    } else {
      assert before[0] in before && lines[0] == before[0] && lines[1..] == before[1..] + ([field] + after);
      LengthAt(before[1..], field, after, n);
    }
  }

  /** An error answer that tells its length in one of its fields. */
  function SizedError(
    code: nat, reason: string, before: seq<string>, name: string, n: nat, after: seq<string>): seq<string> {
    [Status(code, reason)] + before + ([name + ":" + (" " + Decimal(n))] + after)
  }

  predicate IsSizedError(code: nat, reason: string, before: seq<string>, name: string, after: seq<string>) {
    && '\r' !in reason && Lower(name) == "content-length"
    && AreLines(before) && AreLines(after) && forall line <- before :: !IsLengthField(line)
  }

  lemma StatusIsLine(code: nat, reason: string)
    requires '\r' !in reason
    ensures IsLine(Status(code, reason))
  {
    assert '\r' !in Decimal(code);
  }

  lemma SizedErrorRead(
    code: nat, reason: string, before: seq<string>, name: string, n: nat, after: seq<string>)
    requires IsSizedError(code, reason, before, name, after) && n > 0
    ensures var header := Lines(SizedError(code, reason, before, name, n, after));
            IsHeader(header) && StatusLine(header) == Status(code, reason) && BodyOf(header) == Sized(n)
  {
    var field := name + ":" + (" " + Decimal(n));
    var head := [Status(code, reason)] + before;
    LengthFieldRead(name, n);
    NotLength(code, reason);
    StatusIsLine(code, reason);
    assert AreLines(head) && AreLines([field] + after);
    HeaderParts(head + ([field] + after));
    LengthAt(head, field, after + ["", ""], n);
    assert head + ([field] + after) + ["", ""] == head + ([field] + (after + ["", ""]));
  }

  /** A sized error answer followed by a success: the tunnel starts exactly behind the second header. */
  lemma SizedErrorThenTunnel(
    code: nat, reason: string, before: seq<string>, name: string, after: seq<string>, body: string,
    second: string, tail: string, withUser: bool)
    requires IsSizedError(code, reason, before, name, after)
    requires Transient(code) && !Contains(reason, "200") && body != ""
    requires IsHeader(second) && Contains(StatusLine(second), "200")
    ensures
      var first := Lines(SizedError(code, reason, before, name, |body|, after));
      Negotiate(first + (body + (second + tail)), withUser, HTTP_CONNECT_RETRIES) == (Tunnel, tail)
  {
    SizedErrorRead(code, reason, before, name, |body|, after);
    StatusRead(code, reason);
    SaysSuccess(code, reason);
    RetryStaysInStep(
      Lines(SizedError(code, reason, before, name, |body|, after)), body, second, tail, withUser);
  }

  lemma NotLength(code: nat, reason: string)
    ensures !IsLengthField(Status(code, reason))
  {
    assert Status(code, reason)[0] == 'H' && Lower(Status(code, reason))[0] == 'h';
    assert "content-length:"[0] == 'c';
  }

  // ---- When the verdict is right ----

  lemma Starts200(x: string)
    ensures "200" <= x <==> |x| >= 3 && x[0] == '2' && x[1] == '0' && x[2] == '0'
  {
  }

  lemma OneMore(c: char, s: string)
    ensures Contains([c] + s, "200") <==> (c == '2' && |s| >= 2 && s[0] == '0' && s[1] == '0') || Contains(s, "200")
  {
    var x := [c] + s;
    assert x[1..] == s;
    Starts200(x);
  }

  lemma {:induction false} NotWithin(a: string, s: string)
    requires '2' !in a
    ensures Contains(a + s, "200") <==> Contains(s, "200")
  {
    if a == "" {
      assert a + s == s;
    } else {
      assert a[0] in a && a + s == [a[0]] + (a[1..] + s);
      NotWithin(a[1..], s);
      OneMore(a[0], a[1..] + s);
    }
  }

  function Digit(n: nat): char
    requires n < 10
  {
    ('0' as int + n) as char
  }

  lemma ThreeDigits(code: nat)
    requires 100 <= code <= 999
    ensures Decimal(code) == [Digit(code / 100)] + ([Digit(code / 10 % 10)] + [Digit(code % 10)])
  {
    assert code / 10 / 10 == code / 100;
    assert Decimal(code / 100) == [Digit(code / 100)];
    assert Decimal(code / 10) == Decimal(code / 10 / 10) + [Digit(code / 10 % 10)];
  }

  lemma DigitsAndReason(h: char, t: char, u: char, reason: string)
    ensures Contains([h] + ([t] + ([u] + ([' '] + reason))), "200") <==>
      (h == '2' && t == '0' && u == '0') || Contains(reason, "200")
  {
    OneMore(' ', reason);
    OneMore(u, [' '] + reason);
    OneMore(t, [u] + ([' '] + reason));
    OneMore(h, [t] + ([u] + ([' '] + reason)));
  }

  /** A status line with a three-digit code holds "200" if and only if the code is 200 or the reason
      phrase holds it. */
  lemma SaysSuccess(code: nat, reason: string)
    requires 100 <= code <= 999
    ensures Contains(Status(code, reason), "200") <==> code == 200 || Contains(reason, "200")
  {
    var h, t, u := Digit(code / 100), Digit(code / 10 % 10), Digit(code % 10);
    var rest := [h] + ([t] + ([u] + ([' '] + reason)));
    ThreeDigits(code);
    assert Decimal(code) + " " + reason == rest;
    assert Status(code, reason) == "HTTP/1.1 " + rest;
    NotWithin("HTTP/1.1 ", rest);
    DigitsAndReason(h, t, u, reason);
    assert h == '2' && t == '0' && u == '0' <==> code == 200;
  }

  /** An answer decides for a tunnel exactly when its code or its reason phrase says so, and therefore
      rightly if and only if the code is 200 or the reason phrase does not hold "200". */
  lemma TunnelIsSuccess(code: nat, reason: string, fields: seq<string>, tail: string, withUser: bool)
    requires 100 <= code <= 999 && '\r' !in reason && AreLines(fields)
    ensures
      var header := Lines([Status(code, reason)] + fields);
      var verdict := Negotiate(header + tail, withUser, 1).0;
      && IsHeader(header) && StatusCode(StatusLine(header)) == code
      && (verdict.Tunnel? <==> code == 200 || Contains(reason, "200"))
      && ((verdict.Tunnel? <==> code == 200) <==> code == 200 || !Contains(reason, "200"))
  {
    var lines := [Status(code, reason)] + fields;
    StatusRead(code, reason);
    SaysSuccess(code, reason);
    StatusIsLine(code, reason);
    HeaderParts(lines);
    HeaderRead(Lines(lines), tail);
  }

  /** What each answer does, by its code alone when its reason phrase does not hold "200": 200 opens the
      tunnel; 429, 502, 503 and 504 ask again once, behind their body, and so does 407 with a user name;
      everything else is a refusal, and so is any second answer but 200. */
  lemma AnswersDecide(code: nat, reason: string, fields: seq<string>, tail: string, withUser: bool)
    requires 100 <= code <= 999 && '\r' !in reason && !Contains(reason, "200") && AreLines(fields)
    ensures
      var header := Lines([Status(code, reason)] + fields);
      && Negotiate(header + tail, withUser, HTTP_CONNECT_RETRIES) ==
         (if code == 200 then (Tunnel, tail)
          else if code in [429, 502, 503, 504] || (code == 407 && withUser)
          then Negotiate(AfterBody(header, tail), withUser, 1)
          else (Refused, tail))
      && Negotiate(header + tail, withUser, 1) ==
         (if code == 200 then (Tunnel, tail)
          else (Refused, if code == 407 && withUser then AfterBody(header, tail) else tail))
  {
    var lines := [Status(code, reason)] + fields;
    StatusRead(code, reason);
    SaysSuccess(code, reason);
    StatusIsLine(code, reason);
    HeaderParts(lines);
    HeaderRead(Lines(lines), tail);
  }

  /** The answer of a gateway that quotes its upstream. */
  lemma BadGatewayAccepted(tail: string, withUser: bool)
    ensures
      var header := Lines([Status(502, "upstream 200")]);
      && IsHeader(header) && StatusCode(StatusLine(header)) == 502
      && Negotiate(header + tail, withUser, HTTP_CONNECT_RETRIES) == (Tunnel, tail)
  {
    var reason := "upstream 200";
    assert Contains(reason, "200") by {
      NotWithin("upstream ", "200");
      assert reason == "upstream " + "200";
    }
    TunnelIsSuccess(502, reason, [], tail, withUser);
    assert [Status(502, reason)] + [] == [Status(502, reason)];
    HeaderParts([Status(502, reason)]);
    SaysSuccess(502, reason);
    HeaderRead(Lines([Status(502, reason)]), tail);
  }
}

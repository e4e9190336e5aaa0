// For which error answers the CONNECT client of hunt/conn.py reads the body framing that section 6.3 of
// RFC 9112 gives: Transfer-Encoding before Content-Length, and names and white space as they may be
// written. The client looks for a spelling instead, and for a length first.

module HttpFraming {
  import opened Wrappers
  import opened PyText
  import opened ConnectDrain

  const SPELLING: string := "transfer-encoding: chunked"

  // ---- Fields and what they announce ----

  /** A field line, with the optional white space around its value. */
  datatype Field = Field(name: string, lead: string, value: string, trail: string)

  predicate Blank(s: string) {
    forall c <- s :: c == ' ' || c == '\t'
  }

  predicate IsField(f: Field) {
    && f.name != "" && ':' !in f.name && '\r' !in f.name && '\r' !in f.value
    && Blank(f.lead) && Blank(f.trail)
    && (f.value != "" ==> !IsSpace(f.value[0]) && !IsSpace(f.value[|f.value| - 1]))
  }

  predicate AreFields(fields: seq<Field>) {
    forall f <- fields :: IsField(f)
  }

  function LineOf(f: Field): string {
    f.name + ":" + (f.lead + f.value + f.trail)
  }

  function LinesOf(fields: seq<Field>): seq<string> {
    if fields == [] then [] else [LineOf(fields[0])] + LinesOf(fields[1..])
  }

  /** The values of the fields of a name, which is written in lower case here. */
  function ValuesOf(fields: seq<Field>, name: string): seq<string> {
    if fields == [] then []
    else (if Lower(fields[0].name) == name then [fields[0].value] else []) + ValuesOf(fields[1..], name)
  }

  /** The value of a run of decimal digits, independent of the parser. */
  function DecimalValue(t: string): nat {
    if t == "" then 0 else DecimalValue(t[..|t| - 1]) * 10 + DigitOf(t[|t| - 1])
  }

  predicate DecimalText(t: string) {
    t != "" && AllDigits(t)
  }

  datatype Framing = ByChunks | ByLength(n: nat) | ByClose | Invalid

  function LastCoding(value: string): string {
    var codings := SplitOn(value, ',');
    Lower(Strip(codings[|codings| - 1]))
  }

  /** Transfer-Encoding decides if it is there, by its last coding; otherwise equal lengths do. */
  function FramingOf(fields: seq<Field>): Framing {
    var codings, lengths := ValuesOf(fields, "transfer-encoding"), ValuesOf(fields, "content-length");
    if codings != [] then
      if LastCoding(codings[|codings| - 1]) == "chunked" then ByChunks else ByClose
    else if lengths == [] then ByClose
    else if forall v <- lengths :: DecimalText(v) && DecimalValue(v) == DecimalValue(lengths[0])
    then ByLength(DecimalValue(lengths[0]))
    else Invalid
  }

  /** The first Content-Length as the client reads it. */
  function FirstLength(fields: seq<Field>): Option<Option<int>> {
    var lengths := ValuesOf(fields, "content-length");
    if lengths == [] then None else Some(ParseInt(lengths[0], 10))
  }

  predicate NoLengthFirst(fields: seq<Field>) {
    match FirstLength(fields)
    case None => true
    case Some(None) => false
    case Some(Some(n)) => n <= 0
  }

  /** Some line holds the one spelling that the client looks for, in any letter case. */
  predicate Spelt(lines: seq<string>) {
    exists line <- lines :: Contains(Lower(line), SPELLING)
  }

  /** The exact condition, to be read off the lines: a chunked body needs that spelling and no positive
      or unreadable length before it; a length of zero must not come with that spelling; and a body that
      ends with the connection is never read. */
  predicate IsRead(status: string, fields: seq<Field>) {
    var spelt := Spelt([status] + LinesOf(fields));
    match FramingOf(fields)
    case ByChunks => spelt && NoLengthFirst(fields)
    case ByLength(n) => n > 0 || !spelt
    case _ => false
  }

  /** The client's reading is what the fields announce. */
  predicate Reads(body: Body, framing: Framing) {
    match framing
    case ByChunks => body.Chunked?
    case ByLength(n) => if n > 0 then body == Sized(n) else body.Empty?
    case _ => false
  }

  function HeaderOf(status: string, fields: seq<Field>): string {
    Lines([status] + LinesOf(fields))
  }

  // ---- Values ----

  lemma {:induction false} StripLead(lead: string, x: string)
    requires Blank(lead)
    ensures StripLeft(lead + x) == StripLeft(x)
  {
    if lead == "" {
      assert lead + x == x;
    } else {
      assert lead[0] in lead && (lead + x)[0] == lead[0] && (lead + x)[1..] == lead[1..] + x;
      assert forall c <- lead[1..] :: c in lead;
      StripLead(lead[1..], x);
    }
  }

  lemma StripAround(f: Field)
    requires IsField(f)
    ensures Strip(f.lead + f.value + f.trail) == f.value
  {
    Regroup(f.lead, f.value, f.trail);
    StripLead(f.lead, f.value + f.trail);
    if f.value == "" {
      assert f.value + f.trail == f.trail + "";
      StripLead(f.trail, "");
    } else {
      assert StripLeft(f.value + f.trail) == f.value + f.trail;
      StripRightBlank(f.value, f.trail);
    }
  }

  lemma {:induction false} DecimalParses(t: string)
    requires DecimalText(t)
    ensures ParseDigits(t, 10, 0, true) == Some(DecimalValue(t))
  {
    var init, last := t[..|t| - 1], t[|t| - 1];
    assert last in t && t == init + [last];
    if init == "" {
      assert t[1..] == "" && DecimalValue(init) == 0;
    } else {
      assert forall c <- init :: c in t;
      DecimalParses(init);
      ParseDigitsSnoc(init, last, 10, 0, true);
    }
  }

  lemma LengthParses(t: string)
    requires DecimalText(t)
    ensures ParseInt(t, 10) == Some(DecimalValue(t))
  {
    assert t[0] in t && t[|t| - 1] in t;
    StripNothing(t);
    DecimalParses(t);
  }

  // ---- Lines ----

  lemma LowerConcat(a: string, b: string)
    ensures Lower(a + b) == Lower(a) + Lower(b)
  {
  }

  /** A field is a length line to the client exactly by its name. */
  lemma LengthByName(f: Field)
    requires IsField(f)
    ensures IsLengthField(LineOf(f)) <==> Lower(f.name) == "content-length"
    ensures ParseInt(Strip(Partition(LineOf(f), ':').1), 10) == ParseInt(f.value, 10)
  {
    var rest := f.lead + f.value + f.trail;
    PartitionFirst(f.name, rest, ':');
    assert LineOf(f) == f.name + [':'] + rest;
    StripAround(f);
    LowerConcat(f.name + ":", rest);
    LowerConcat(f.name, ":");
    NameThenColon(Lower(f.name), Lower(rest));
    forall i | 0 <= i < |f.name|
      ensures Lower(f.name)[i] != ':'
    {
      assert f.name[i] in f.name;
    }
  }

  lemma NameThenColon(name: string, rest: string)
    ensures ':' !in name ==> ("content-length:" <= name + ":" + rest <==> name == "content-length")
  {
    var p, s := "content-length:", name + ":" + rest;
    assert |p| == 15 && p[14] == ':' && forall i :: 0 <= i < 14 ==> p[i] != ':';
    assert s[|name|] == ':';
    if ':' !in name && p <= s {
      assert s[14] == p[14];
      assert |name| <= 14 ==> |name| == 14;
      assert s[..14] == p[..14];
      assert name == s[..14];
    }
  }

  lemma {:induction false} FirstLengthRead(fields: seq<Field>)
    requires AreFields(fields)
    ensures LengthLine(LinesOf(fields) + ["", ""]) == FirstLength(fields)
  {
    var lines := LinesOf(fields) + ["", ""];
    if fields == [] {
      assert lines == ["", ""] && lines[1..] == [""] && [""][1..] == [];
    } else {
      assert fields[0] in fields && forall f <- fields[1..] :: f in fields;
      LengthByName(fields[0]);
      FirstLengthRead(fields[1..]);
      assert lines[0] == LineOf(fields[0]) && lines[1..] == LinesOf(fields[1..]) + ["", ""];
    }
  }

  lemma {:induction false} TooShort(s: string, p: string)
    requires |s| < |p|
    ensures !Contains(s, p)
  {
    if s != "" {
      TooShort(s[1..], p);
    }
  }

  /** What does not hold the separator lies on one side of it. */
  lemma {:induction false} OnOneSide(a: string, c: char, b: string, p: string)
    requires c !in p && p != ""
    ensures Contains(a + [c] + b, p) <==> Contains(a, p) || Contains(b, p)
  {
    var s := a + [c] + b;
    if |a| < |p| {
      assert p[|a|] in p && s[|a|] == c;
    }
    if a == "" {
      assert s[1..] == b;
    } else {
      assert s[1..] == a[1..] + [c] + b;
      assert p <= s ==> p == s[..|p|] == a[..|p|];
      OnOneSide(a[1..], c, b, p);
    }
  }

  lemma OnOneLine(a: string, b: string, p: string)
    requires '\r' !in p && '\n' !in p && p != ""
    ensures Contains(a + CRLF + b, p) <==> Contains(a, p) || Contains(b, p)
  {
    assert a + CRLF + b == a + ['\r'] + ("" + ['\n'] + b);
    OnOneSide(a, '\r', "" + ['\n'] + b, p);
    OnOneSide("", '\n', b, p);
  }

  /** The client finds its spelling in the header exactly if one line holds it. */
  lemma {:induction false} SpeltIsFound(lines: seq<string>)
    ensures SaysChunked(Lines(lines)) <==> Spelt(lines)
  {
    assert |SPELLING| == 26 && '\r' !in SPELLING && '\n' !in SPELLING;
    assert Lower(CRLF) == CRLF;
    if lines == [] {
      TooShort(Lower(CRLF), SPELLING);
    } else {
      var rest := Lines(lines[1..]);
      LowerConcat(lines[0] + CRLF, rest);
      LowerConcat(lines[0], CRLF);
      OnOneLine(Lower(lines[0]), Lower(rest), SPELLING);
      SpeltIsFound(lines[1..]);
      assert forall line <- lines :: line == lines[0] || line in lines[1..];
      assert lines[0] in lines && forall line <- lines[1..] :: line in lines;
    }
  }

  // ---- The theorem ----

  lemma {:induction false} FieldsAreLines(fields: seq<Field>)
    requires AreFields(fields)
    ensures AreLines(LinesOf(fields))
  {
    if fields != [] {
      assert fields[0] in fields && forall f <- fields[1..] :: f in fields;
      FieldsAreLines(fields[1..]);
      assert IsLine(LineOf(fields[0]));
    }
  }

  predicate IsStatus(status: string) {
    IsLine(status) && !IsLengthField(status)
  }

  lemma BodyRead(status: string, fields: seq<Field>)
    requires IsStatus(status) && AreFields(fields)
    ensures var spelt := Spelt([status] + LinesOf(fields));
      var header := HeaderOf(status, fields);
      && IsHeader(header) && StatusLine(header) == status
      && BodyOf(header) ==
         match FirstLength(fields)
         case Some(None) => Unreadable
         case Some(Some(n)) => if n > 0 then Sized(n) else if spelt then Chunked else Empty
         case None => if spelt then Chunked else Empty
  {
    var lines := [status] + LinesOf(fields);
    FieldsAreLines(fields);
    HeaderParts(lines);
    FirstLengthRead(fields);
    SpeltIsFound(lines);
    assert (lines + ["", ""])[1..] == LinesOf(fields) + ["", ""];
  }

  /** The client reads the framing of RFC 9112, section 6.3, if and only if that condition holds. */
  lemma FramingIsRead(status: string, fields: seq<Field>)
    requires IsStatus(status) && AreFields(fields)
    ensures Reads(BodyOf(HeaderOf(status, fields)), FramingOf(fields)) <==> IsRead(status, fields)
  {
    BodyRead(status, fields);
    var lengths := ValuesOf(fields, "content-length");
    if FramingOf(fields).ByLength? {
      assert lengths[0] in lengths;
      LengthParses(lengths[0]);
    }
  }

  /** A body as the announced framing wants it; a chunked one without extensions and trailers, which the
      drain does not know. */
  ghost predicate IsFramed(framing: Framing, body: string) {
    match framing
    case ByChunks => exists b :: IsChunked(b) && Plain(b) && body == Encoded(b)
    case ByLength(n) => |body| == n
    case _ => false
  }

  /** After a retried answer whose framing is read, the second answer decides, and a tunnel starts with
      exactly the bytes behind its header. */
  lemma FramedRetryStaysInStep(
    status: string, fields: seq<Field>, body: string, second: string, tail: string, withUser: bool)
    requires IsStatus(status) && AreFields(fields) && IsRead(status, fields)
    requires IsFramed(FramingOf(fields), body)
    requires Retried(HeaderOf(status, fields), withUser) && IsHeader(second)
    ensures var stream := HeaderOf(status, fields) + (body + (second + tail));
      && Negotiate(stream, withUser, HTTP_CONNECT_RETRIES) == Negotiate(second + tail, withUser, 1)
      && (Contains(StatusLine(second), "200") ==>
            Negotiate(stream, withUser, HTTP_CONNECT_RETRIES) == (Tunnel, tail))
  {
    FramingIsRead(status, fields);
    BodyRead(status, fields);
    RetryStaysInStep(HeaderOf(status, fields), body, second, tail, withUser);
  }

  // ---- Both sides of the condition ----

  /** A field that announces chunks, with or without a blank before its value. */
  predicate AnnouncesChunks(f: Field) {
    && Lower(f.name) == "transfer-encoding" && Lower(f.value) == "chunked"
    && (f.lead == "" || f.lead == " ") && f.trail == ""
  }

  lemma AnnouncingField(f: Field)
    requires AnnouncesChunks(f)
    ensures IsField(f) && |LineOf(f)| == |f.lead| + 25
    ensures f.lead == " " ==> Lower(LineOf(f)) == SPELLING
  {
    LowerIsPlain(f.name, "transfer-encoding");
    LowerIsPlain(f.value, "chunked");
    assert f.value[0] in f.value && f.value[|f.value| - 1] in f.value;
    assert |"transfer-encoding"| == 17 && |"chunked"| == 7;
    assert f.lead + f.value + f.trail == f.lead + f.value;
    if f.lead == " " {
      assert LineOf(f) == f.name + ": " + f.value;
      LowerConcat(f.name + ": ", f.value);
      LowerConcat(f.name, ": ");
      assert Lower(": ") == ": ";
      assert "transfer-encoding" + ": " + "chunked" == SPELLING;
    }
  }

  /** Behind fields without a length, it makes the body a chunked one. */
  lemma ChunksAnnounced(before: seq<Field>, f: Field)
    requires AreFields(before) && ValuesOf(before, "content-length") == [] && AnnouncesChunks(f)
    ensures var fields := before + [f];
      && AreFields(fields) && FramingOf(fields) == ByChunks && FirstLength(fields) == None
      && LinesOf(fields) == LinesOf(before) + [LineOf(f)]
  {
    AnnouncingField(f);
    ValuesSnoc(before, f, "content-length");
    ValuesSnoc(before, f, "transfer-encoding");
    ChunkedIsLast(f.value);
    LinesSnoc(before, f);
    OtherName(f.name);
  }

  lemma OtherName(name: string)
    requires Lower(name) == "transfer-encoding"
    ensures Lower(name) != "content-length"
  {
    assert "transfer-encoding"[0] == 't' && "content-length"[0] == 'c';
  }

  /** The usual spelling, with one blank and any letter case, is read. */
  lemma UsualSpellingRead(status: string, before: seq<Field>, f: Field)
    requires IsStatus(status) && AreFields(before) && ValuesOf(before, "content-length") == []
    requires AnnouncesChunks(f) && f.lead == " "
    ensures FramingOf(before + [f]) == ByChunks && IsRead(status, before + [f])
  {
    ChunksAnnounced(before, f);
    AnnouncingField(f);
    assert SPELLING <= Lower(LineOf(f));
    assert LineOf(f) in [status] + LinesOf(before + [f]);
  }

  lemma LowerIsPlain(s: string, t: string)
    requires Lower(s) == t && forall c <- t :: 'a' <= c <= 'z' || c == '-'
    ensures |s| == |t| && forall c <- s :: c != ':' && c != '\r' && c != ',' && !IsSpace(c)
  {
    forall i | 0 <= i < |s|
      ensures s[i] != ':' && s[i] != '\r' && s[i] != ',' && !IsSpace(s[i])
    {
      assert LowerChar(s[i]) == t[i] && t[i] in t;
    }
  }

  lemma ChunkedIsLast(value: string)
    requires Lower(value) == "chunked"
    ensures LastCoding(value) == "chunked"
  {
    LowerIsPlain(value, "chunked");
    SplitNone(value, ',');
    assert value[0] in value && value[|value| - 1] in value;
    StripNothing(value);
  }

  lemma {:induction false} ValuesSnoc(fields: seq<Field>, f: Field, name: string)
    ensures ValuesOf(fields + [f], name) == ValuesOf(fields, name) + if Lower(f.name) == name then [f.value] else []
  {
    if fields == [] {
      assert [f][1..] == [];
    } else {
      assert (fields + [f])[1..] == fields[1..] + [f];
      ValuesSnoc(fields[1..], f, name);
    }
  }

  lemma {:induction false} LinesSnoc(fields: seq<Field>, f: Field)
    ensures LinesOf(fields + [f]) == LinesOf(fields) + [LineOf(f)]
  {
    if fields == [] {
      assert [f][1..] == [];
    } else {
      assert (fields + [f])[1..] == fields[1..] + [f];
      LinesSnoc(fields[1..], f);
    }
  }

  /** Without the blank, which is optional, the same field is not read unless another line happens to
      hold the spelling, and the body stays on the stream. */
  lemma TightSpellingMissed(status: string, before: seq<Field>, f: Field, body: string, tail: string)
    requires IsStatus(status) && AreFields(before) && ValuesOf(before, "content-length") == []
    requires AnnouncesChunks(f) && f.lead == "" && !Spelt([status] + LinesOf(before))
    ensures FramingOf(before + [f]) == ByChunks && !IsRead(status, before + [f])
    ensures AfterBody(HeaderOf(status, before + [f]), body + tail) == body + tail
  {
    ChunksAnnounced(before, f);
    AnnouncingField(f);
    TooShort(Lower(LineOf(f)), SPELLING);
    forall line | line in [status] + LinesOf(before + [f])
      ensures !Contains(Lower(line), SPELLING)
    {
      assert line in [status] + LinesOf(before) || line == LineOf(f);
    }
    BodyRead(status, before + [f]);
  }

  /** Beside a positive Content-Length the chunks are counted as plain bytes. */
  lemma LengthBesideChunks(status: string, fields: seq<Field>)
    requires IsStatus(status) && AreFields(fields) && FramingOf(fields) == ByChunks
    requires ValuesOf(fields, "content-length") != []
    requires var v := ValuesOf(fields, "content-length")[0]; DecimalText(v) && DecimalValue(v) > 0
    ensures !IsRead(status, fields)
    ensures BodyOf(HeaderOf(status, fields)) == Sized(DecimalValue(ValuesOf(fields, "content-length")[0]))
  {
    LengthParses(ValuesOf(fields, "content-length")[0]);
    BodyRead(status, fields);
  }
}

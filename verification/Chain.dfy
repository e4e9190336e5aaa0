// The textual chain of a connection: who was tried and who carried it, joined into one string and
// decoded again for the switch history. Models the tokens of hunt/proxy_routing.py, the join of the
// runners, the split of hunt/db.py and effective_from_chain of hunt/switch_history.py.

module Chain {
  import opened PyText

  const ARROW: string := " \U{2192} "
  const FALLBACK: string := "fallback"

  /** Who carried a request. `retry` counts the failed attempts before the one that won. */
  datatype Carrier =
    | ByDirect(channel: bool)
    | ByCustom(id: string, retry: nat)
    | ByRating(addr: string, retry: nat)
    | ByPool(addr: string)

  /** What was noted on the way. */
  datatype Note = Disabled(id: string) | Rerouted(addr: string)

  function RetryTag(retry: nat): string {
    if retry == 0 then "" else " (retry:" + Decimal(retry) + ")"
  }

  function TokenOf(c: Carrier): string {
    match c
    case ByDirect(channel) => if channel then "direct via channel" else "direct"
    case ByCustom(id, retry) => "custom:" + id + RetryTag(retry)
    case ByRating(addr, retry) => "proxy:" + addr + RetryTag(retry)
    case ByPool(addr) => "pool:" + addr
  }

  function NoteText(n: Note): string {
    match n
    case Disabled(id) => "custom:" + id + " (disabled)"
    case Rerouted(addr) => "proxy:" + addr + " (fallback\U{2192}pool)"
  }

  function NoteTexts(notes: seq<Note>): seq<string> {
    seq(|notes|, i requires 0 <= i < |notes| => NoteText(notes[i]))
  }

  // ---- Joining and splitting ----

  function SplitArrow(s: string): (parts: seq<string>)
    ensures |parts| >= 1
    decreases |s|
  {
    if ARROW <= s then [""] + SplitArrow(s[3..])
    else if s == "" then [""]
    else var rest := SplitArrow(s[1..]); [[s[0]] + rest[0]] + rest[1..]
  }

  /** No blank is followed by an arrow, so the separator cannot start inside the text. */
  predicate NoArrow(s: string) {
    forall i :: 0 <= i < |s| - 1 && s[i] == ' ' ==> s[i + 1] != '\U{2192}'
  }

  lemma {:induction false} SplitArrowFirst(a: string, b: string)
    requires NoArrow(a)
    ensures SplitArrow(a + ARROW + b) == [a] + SplitArrow(b)
  {
    var s := a + ARROW + b;
    if a == "" {
      assert s[..3] == ARROW && s[3..] == b;
    } else {
      assert s[1..] == a[1..] + ARROW + b;
      assert s[0] == a[0] && s[1] == if |a| > 1 then a[1] else ' ';
      assert ARROW[0] == ' ' && ARROW[1] == '\U{2192}';
      SplitArrowFirst(a[1..], b);
      assert [a[0]] + a[1..] == a;
    }
  }

  lemma {:induction false} SplitArrowNone(a: string)
    requires NoArrow(a)
    ensures SplitArrow(a) == [a]
  {
    if a != "" {
      assert ARROW[0] == ' ' && ARROW[1] == '\U{2192}';
      SplitArrowNone(a[1..]);
      assert [a[0]] + a[1..] == a;
    }
  }

  /** Splitting undoes joining when no token hides a separator. */
  lemma {:induction false} SplitJoined(tokens: seq<string>)
    requires |tokens| >= 1 && forall t <- tokens :: NoArrow(t)
    ensures SplitArrow(Join(tokens, ARROW)) == tokens
  {
    if |tokens| == 1 {
      SplitArrowNone(tokens[0]);
    } else {
      SplitJoined(tokens[1..]);
      SplitArrowFirst(tokens[0], Join(tokens[1..], ARROW));
      assert [tokens[0]] + tokens[1..] == tokens;
    }
  }

  // ---- Decoding ----

  /** The text before the first " (". */
  function BeforeParen(s: string): string {
    if s == "" || " (" <= s then "" else [s[0]] + BeforeParen(s[1..])
  }

  function Effective(chain: seq<string>): (string, string) {
    if chain == [] then ("", "")
    else
      var tok := chain[|chain| - 1];
      if HasPrefix(tok, "pool:") then
        (Strip(BeforeParen(tok[5..])), if exists c :: c in chain && Contains(c, FALLBACK) then "fallback" else "pool")
      else if HasPrefix(tok, "proxy:") then (Strip(BeforeParen(tok[6..])), "select")
      else if HasPrefix(tok, "direct") then ("", "direct")
      else ("", "")
  }

  /** An address as the chain can carry it: no outer blanks, no " (" and no arrow after a blank. */
  predicate Plain(addr: string) {
    && addr != "" && !IsSpace(addr[0]) && !IsSpace(addr[|addr| - 1])
    && NoArrow(addr)
    && forall i :: 0 <= i < |addr| - 1 && addr[i] == ' ' ==> addr[i + 1] != '('
  }

  lemma {:induction false} ParenCut(a: string, tail: string)
    requires forall i :: 0 <= i < |a| - 1 && a[i] == ' ' ==> a[i + 1] != '('
    requires a != "" ==> !IsSpace(a[|a| - 1])
    requires tail == "" || " (" <= tail
    ensures BeforeParen(a + tail) == a
  {
    var s := a + tail;
    if a == "" {
      assert s == tail;
    } else {
      assert s[1..] == a[1..] + tail && s[0] == a[0];
      assert |a| > 1 ==> s[1] == a[1];
      assert " ("[0] == ' ' && " ("[1] == '(';
      assert |a| == 1 ==> !IsSpace(a[0]);
      assert !(" (" <= s);
      ParenCut(a[1..], tail);
      assert [a[0]] + a[1..] == a;
    }
  }

  lemma AddressBack(addr: string, retry: nat)
    requires Plain(addr)
    ensures Strip(BeforeParen(addr + RetryTag(retry))) == addr
  {
    var tail := RetryTag(retry);
    if retry > 0 {
      assert tail[..2] == " (";
    }
    ParenCut(addr, tail);
    StripNothing(addr);
  }

  // ---- Where the word "fallback" can hide ----

  /** A prefix without the first letter of the word adds no occurrence. */
  lemma {:induction false} PrefixWithout(x: string, y: string)
    requires 'f' !in x
    ensures Contains(x + y, FALLBACK) <==> Contains(y, FALLBACK)
  {
    if x == "" {
      assert x + y == y;
    } else {
      assert (x + y)[0] == x[0] && x[0] in x && (x + y)[1..] == x[1..] + y;
      PrefixWithout(x[1..], y);
    }
  }

  /** Nor does a suffix that starts with a blank and lacks that letter. */
  lemma {:induction false} SuffixWithout(x: string, y: string)
    requires y == "" || y[0] == ' '
    requires 'f' !in y
    ensures Contains(x + y, FALLBACK) <==> Contains(x, FALLBACK)
  {
    if x == "" {
      assert x + y == y + "";
      PrefixWithout(y, "");
    } else {
      assert (x + y)[1..] == x[1..] + y;
      SuffixWithout(x[1..], y);
      assert forall i :: 0 <= i < 8 ==> FALLBACK[i] != ' ';
      assert y != "" ==> (x + y)[|x|] == ' ';
    }
  }

  lemma RerouteSaysFallback(addr: string)
    ensures Contains(NoteText(Rerouted(addr)), FALLBACK)
  {
    var head := "proxy:" + addr + " (";
    var tail := "fallback\U{2192}pool)";
    assert NoteText(Rerouted(addr)) == head + tail;
    assert FALLBACK <= tail;
    ContainsTail(head, tail);
  }

  lemma {:induction false} ContainsTail(x: string, y: string)
    requires Contains(y, FALLBACK)
    ensures Contains(x + y, FALLBACK)
  {
    if x == "" {
      assert x + y == y;
    } else {
      assert (x + y)[1..] == x[1..] + y;
      ContainsTail(x[1..], y);
    }
  }

  lemma DisabledSaysFallback(id: string)
    ensures Contains(NoteText(Disabled(id)), FALLBACK) <==> Contains(id, FALLBACK)
  {
    PrefixWithout("custom:", id + " (disabled)");
    assert NoteText(Disabled(id)) == "custom:" + (id + " (disabled)");
    SuffixWithout(id, " (disabled)");
  }

  lemma PoolSaysFallback(addr: string)
    ensures Contains("pool:" + addr, FALLBACK) <==> Contains(addr, FALLBACK)
  {
    PrefixWithout("pool:", addr);
  }

  // ---- The decoded chain against what happened ----

  function Kind(c: Carrier, rerouted: bool): string {
    match c
    case ByDirect(_) => "direct"
    case ByCustom(_, _) => ""
    case ByRating(_, _) => "select"
    case ByPool(_) => if rerouted then "fallback" else "pool"
  }

  function Address(c: Carrier): string {
    if c.ByRating? || c.ByPool? then c.addr else ""
  }

  predicate WasRerouted(notes: seq<Note>) {
    exists i :: 0 <= i < |notes| && notes[i].Rerouted?
  }

  /** Some address or id on the way spells the word itself. */
  predicate Spells(notes: seq<Note>, c: Carrier) {
    || (c.ByPool? && Contains(c.addr, FALLBACK))
    || exists i :: 0 <= i < |notes| && notes[i].Disabled? && Contains(notes[i].id, FALLBACK)
  }

  predicate PlainNote(n: Note) {
    match n
    case Disabled(id) => NoArrow(id)
    case Rerouted(addr) => NoArrow(addr)
  }

  predicate PlainCarrier(c: Carrier) {
    match c
    case ByDirect(_) => true
    case ByCustom(id, _) => NoArrow(id)
    case ByRating(addr, _) => Plain(addr)
    case ByPool(addr) => Plain(addr)
  }

  function Tokens(notes: seq<Note>, c: Carrier): seq<string> {
    NoteTexts(notes) + [TokenOf(c)]
  }

  lemma NoArrowTag(retry: nat)
    ensures NoArrow(RetryTag(retry))
  {
    var d := Decimal(retry);
    assert forall i :: 0 <= i < |d| ==> d[i] in d;
  }

  lemma NoArrowJoin(x: string, y: string)
    requires NoArrow(x) && NoArrow(y) && (y == "" || y[0] != '\U{2192}')
    ensures NoArrow(x + y)
  {
  }

  lemma TokenNoArrow(c: Carrier)
    requires PlainCarrier(c)
    ensures NoArrow(TokenOf(c))
  {
    match c
    case ByDirect(_) =>
    case ByCustom(id, retry) =>
      NoArrowTag(retry);
      NoArrowColon("custom:", id);
      NoArrowJoin("custom:" + id, RetryTag(retry));
    case ByRating(addr, retry) =>
      NoArrowTag(retry);
      NoArrowColon("proxy:", addr);
      NoArrowJoin("proxy:" + addr, RetryTag(retry));
    case ByPool(addr) =>
      NoArrowColon("pool:", addr);
  }

  lemma NoArrowColon(x: string, y: string)
    requires ' ' !in x && NoArrow(y)
    ensures NoArrow(x + y)
  {
    assert forall i :: 0 <= i < |x| ==> x[i] in x;
    forall i | 0 <= i < |x + y| - 1 && (x + y)[i] == ' '
      ensures (x + y)[i + 1] != '\U{2192}'
    {
      assert y[i - |x|] == ' ' && (x + y)[i + 1] == y[i - |x| + 1];
    }
  }

  lemma NoteNoArrow(n: Note)
    requires PlainNote(n)
    ensures NoArrow(NoteText(n))
  {
    match n
    case Disabled(id) =>
      NoArrowColon("custom:", id);
      NoArrowJoin("custom:" + id, " (disabled)");
    case Rerouted(addr) =>
      NoArrowColon("proxy:", addr);
      NoArrowJoin("proxy:" + addr, " (fallback\U{2192}pool)");
  }

  lemma JoinedBack(notes: seq<Note>, c: Carrier)
    requires PlainCarrier(c) && forall n <- notes :: PlainNote(n)
    ensures SplitArrow(Join(Tokens(notes, c), ARROW)) == Tokens(notes, c)
  {
    forall t | t in Tokens(notes, c)
      ensures NoArrow(t)
    {
      var i :| 0 <= i <= |notes| && t == Tokens(notes, c)[i];
      if i < |notes| {
        assert notes[i] in notes;
        NoteNoArrow(notes[i]);
      } else {
        TokenNoArrow(c);
      }
    }
    SplitJoined(Tokens(notes, c));
  }

  lemma PoolFallback(notes: seq<Note>, addr: string)
    ensures (exists t :: t in Tokens(notes, ByPool(addr)) && Contains(t, FALLBACK)) <==>
              (WasRerouted(notes) || Spells(notes, ByPool(addr)))
  {
    var tokens := Tokens(notes, ByPool(addr));
    PoolSaysFallback(addr);
    forall i | 0 <= i < |notes|
      ensures tokens[i] in tokens
      ensures Contains(tokens[i], FALLBACK) <==> notes[i].Rerouted? || Contains(notes[i].id, FALLBACK)
    {
      match notes[i]
      case Disabled(id) => DisabledSaysFallback(id);
      case Rerouted(a) => RerouteSaysFallback(a);
    }
    assert tokens[|notes|] == "pool:" + addr && tokens[|notes|] in tokens;
    if t :| t in tokens && Contains(t, FALLBACK) {
      var i :| 0 <= i <= |notes| && tokens[i] == t;
    }
  }

  lemma DecodeRating(notes: seq<Note>, addr: string, retry: nat)
    requires Plain(addr)
    ensures Effective(Tokens(notes, ByRating(addr, retry))) == (addr, "select")
  {
    var tok := TokenOf(ByRating(addr, retry));
    assert tok[0] == 'p' && tok[1] == 'r' && tok[..6] == "proxy:" && tok[6..] == addr + RetryTag(retry);
    AddressBack(addr, retry);
  }

  lemma DecodePool(notes: seq<Note>, addr: string)
    requires Plain(addr)
    ensures Effective(Tokens(notes, ByPool(addr))) ==
      (addr, if WasRerouted(notes) || Spells(notes, ByPool(addr)) then "fallback" else "pool")
  {
    var tok := TokenOf(ByPool(addr));
    assert tok[..5] == "pool:" && tok[5..] == addr + RetryTag(0);
    AddressBack(addr, 0);
    PoolFallback(notes, addr);
  }

  lemma DecodeOther(notes: seq<Note>, c: Carrier)
    requires c.ByDirect? || c.ByCustom?
    ensures Effective(Tokens(notes, c)) == ("", if c.ByDirect? then "direct" else "")
  {
    var tok := TokenOf(c);
    if c.ByDirect? {
      assert tok[0] == 'd' && tok[..6] == "direct";
    } else {
      assert tok[0] == 'c';
    }
  }

  /** The logged chain names the actual carrier, and its kind unless the word "fallback" appears in a
      pool address or a disabled id and no reroute happened. */
  lemma DecodedIsActual(notes: seq<Note>, c: Carrier)
    requires PlainCarrier(c) && forall n <- notes :: PlainNote(n)
    ensures var decoded := Effective(SplitArrow(Join(Tokens(notes, c), ARROW)));
            && decoded.0 == Address(c)
            && (decoded.1 == Kind(c, WasRerouted(notes)) <==>
                !(c.ByPool? && !WasRerouted(notes) && Spells(notes, c)))
  {
    JoinedBack(notes, c);
    match c
    case ByRating(addr, retry) => DecodeRating(notes, addr, retry);
    case ByPool(addr) => DecodePool(notes, addr); assert "fallback"[0] != "pool"[0];
    case _ => DecodeOther(notes, c);
  }

  /** A disabled proxy whose id spells the word turns a plain pool pick into a "fallback". */
  lemma DisabledIdMislabels()
    ensures var notes, c := [Disabled("fallback")], ByPool("10.0.0.1:80");
            && Kind(c, WasRerouted(notes)) == "pool"
            && Effective(SplitArrow(Join(Tokens(notes, c), ARROW))).1 != "pool"
  {
    var notes, c := [Disabled("fallback")], ByPool("10.0.0.1:80");
    assert FALLBACK <= "fallback";
    assert notes[0].Disabled? && Contains(notes[0].id, FALLBACK);
    DecodedIsActual(notes, c);
  }
}

// The IP blacklist: its in-memory index, its table, and the queries against both.
// Models hunt/ip_blacklist.py for queries of IPv4 addresses and non-empty source ids, on ASCII text. What the address
// library makes of a token, and of an entry that the fast parser leaves to it, are parameters.

module IpBlacklist {
  import opened Wrappers
  import opened PyText
  import opened Cidr

  /** A single host, or a network. A range written "a-b" yields networks, also of length 32. */
  datatype Block = Host(addr: nat) | Net(base: nat, plen: nat)

  predicate IsBlock(b: Block) {
    match b
    case Host(addr) => addr <= ALL32
    case Net(base, plen) => plen <= 32 && base <= ALL32 && BlockLo(base, plen) == base
  }

  function KeyOf(b: Block): string {
    match b
    case Host(addr) => Dotted(addr)
    case Net(base, plen) => Dotted(base) + "/" + Decimal(plen)
  }

  /** The ranges of the entries that the fast parser leaves to the library and the library can read. */
  type Library = map<string, (nat, nat)>

  /** The range of an entry, if it has one. */
  function Span(lib: Library, k: string): Option<(nat, nat)> {
    match RangeOf(k)
    case Known(lo, hi) => Some((lo, hi))
    case Rejected => None
    case Library => if k in lib then Some(lib[k]) else None
  }

  /** An entry that is left to the library covers what the library says, and nothing if it says nothing. */
  lemma LibraryDecides(lib: Library, k: string, a: nat)
    requires RangeOf(k) == RangeResult.Library
    ensures Covers(lib, k, a) <==> k in lib && a >= lib[k].0 && a <= lib[k].1
  {
  }

  predicate Single(lib: Library, k: string) {
    Span(lib, k).Some? && Span(lib, k).value.0 == Span(lib, k).value.1
  }

  /** The entry text `k` contains the address `a`. */
  predicate Covers(lib: Library, k: string, a: nat) {
    Span(lib, k).Some? && Span(lib, k).value.0 <= a <= Span(lib, k).value.1
  }

  function RangeOfBlock(b: Block): (nat, nat)
    requires IsBlock(b)
  {
    if b.Host? then (b.addr, b.addr) else (b.base, BlockHi(b.base, b.plen))
  }

  lemma KeyRange(lib: Library, b: Block)
    requires IsBlock(b)
    ensures Span(lib, KeyOf(b)) == Some(RangeOfBlock(b))
  {
    match b
    case Host(addr) => ReadBack(addr, 32);
    case Net(base, plen) => ReadBack(base, plen);
  }

  datatype Meta = Meta(source: string, name: string, reason: string)

  datatype DbRow = DbRow(entry: string, meta: Meta)

  predicate HasSource(ms: seq<Meta>, source: string) {
    exists i :: 0 <= i < |ms| && ms[i].source == source
  }

  /** (entry, source) pairs, the unit of the naive scan. */
  type Pair = (string, string)

  /** The naive scan: some entry of the source contains the address. */
  ghost predicate Listed(lib: Library, pairs: set<Pair>, source: string, a: nat) {
    exists k :: (k, source) in pairs && Covers(lib, k, a)
  }

  // ---- From text to blocks ----

  /** What the address library makes of a range token and of any other token. */
  datatype Reader = Reader(range: string -> seq<Block>, network: string -> seq<Block>)

  ghost predicate ReadsBlocks(r: Reader) {
    forall token :: (forall b <- r.range(token) :: IsBlock(b)) && (forall b <- r.network(token) :: IsBlock(b))
  }

  predicate IsLineEnd(c: char) {
    '\n' <= c <= '\r' || '\U{1C}' <= c <= '\U{1E}'
  }

  function TextLines(s: string): (lines: seq<string>)
    ensures |lines| >= 1
  {
    if s == "" then [""]
    else
      var rest := TextLines(s[1..]);
      if IsLineEnd(s[0]) then [""] + rest else [[s[0]] + rest[0]] + rest[1..]
  }

  function FirstToken(s: string): string {
    if s == "" || IsSpace(s[0]) then "" else [s[0]] + FirstToken(s[1..])
  }

  predicate IsComment(line: string) {
    line == "" || HasPrefix(line, "#") || HasPrefix(line, ";") || HasPrefix(line, "//")
  }

  /** Only the first token of a line counts; a dash without a slash makes it a range. */
  function LineBlocks(r: Reader, line: string): seq<Block> {
    if IsComment(Strip(line)) then []
    else
      var token := FirstToken(Strip(line));
      if '-' in token && '/' !in token then r.range(token) else r.network(token)
  }

  function BlocksOfLines(r: Reader, lines: seq<string>): seq<Block> {
    if lines == [] then [] else BlocksOfLines(r, lines[..|lines| - 1]) + LineBlocks(r, lines[|lines| - 1])
  }

  function TextBlocks(r: Reader, text: string): seq<Block> {
    BlocksOfLines(r, TextLines(text))
  }

  lemma {:induction false} LineFirst(line: string, c: char, more: string)
    requires IsLineEnd(c) && forall x <- line :: !IsLineEnd(x)
    ensures TextLines(line + [c] + more) == [line] + TextLines(more)
  {
    var s := line + [c] + more;
    if line == "" {
      assert s[1..] == more;
    } else {
      assert s[0] == line[0] && line[0] in line && s[1..] == line[1..] + [c] + more;
      LineFirst(line[1..], c, more);
      assert [line[0]] + line[1..] == line;
    }
  }

  lemma Regroup(a: seq<Block>, b: seq<Block>, c: seq<Block>)
    ensures a + b + c == a + (b + c)
  {
  }

  lemma {:induction false} BlocksConcat(r: Reader, a: seq<string>, b: seq<string>)
    ensures BlocksOfLines(r, a + b) == BlocksOfLines(r, a) + BlocksOfLines(r, b)
  {
    if b == [] {
      assert a + b == a;
    } else {
      var init, last := b[..|b| - 1], LineBlocks(r, b[|b| - 1]);
      assert (a + b)[..|a + b| - 1] == a + init;
      BlocksConcat(r, a, init);
      Regroup(BlocksOfLines(r, a), BlocksOfLines(r, init), last);
    }
  }

  lemma {:induction false} StripRightKeeps(x: string, t: string)
    requires x != "" && !IsSpace(x[|x| - 1])
    ensures StripRight(x + t) == x + StripRight(t) && StripRight(t) <= t
    decreases |t|
  {
    var s := x + t;
    if t == "" {
      assert s == x && StripRight("") == "";
    } else {
      assert s[|s| - 1] == t[|t| - 1] && s[..|s| - 1] == x + t[..|t| - 1];
      if IsSpace(t[|t| - 1]) {
        StripRightKeeps(x, t[..|t| - 1]);
      }
    }
  }

  lemma {:induction false} StripLeftDrops(lead: string, x: string)
    requires forall c <- lead :: IsSpace(c)
    ensures StripLeft(lead + x) == StripLeft(x)
  {
    if lead == "" {
      assert lead + x == x;
    } else {
      assert lead[0] in lead && (lead + x)[0] == lead[0] && (lead + x)[1..] == lead[1..] + x;
      assert forall c <- lead[1..] :: c in lead;
      StripLeftDrops(lead[1..], x);
    }
  }

  lemma {:induction false} TokenFirst(token: string, tail: string)
    requires (forall c <- token :: !IsSpace(c)) && (tail == "" || IsSpace(tail[0]))
    ensures FirstToken(token + tail) == token
  {
    if token == "" {
      assert token + tail == tail;
    } else {
      assert token[0] in token && (token + tail)[0] == token[0] && (token + tail)[1..] == token[1..] + tail;
      assert forall c <- token[1..] :: c in token;
      TokenFirst(token[1..], tail);
    }
  }

  /** A line that begins, behind any blanks, with a token is read by that token alone: as a range if it
      has a dash and no slash, else as a network; a comment mark in front of it makes it nothing, and
      so is a line of blanks. */
  lemma LineRead(r: Reader, lead: string, token: string, tail: string)
    requires (forall c <- lead :: IsSpace(c)) && (forall c <- token :: !IsSpace(c))
    requires tail == "" || IsSpace(tail[0])
    ensures LineBlocks(r, lead + token + tail) ==
      if token == "" && (forall c <- tail :: IsSpace(c)) then []
      else if token == "" then LineBlocks(r, tail)
      else if token[0] == '#' || token[0] == ';' || "//" <= token then []
      else if (exists c <- token :: c == '-') && (forall c <- token :: c != '/') then r.range(token)
      else r.network(token)
  {
    var line := lead + token + tail;
    assert line == lead + (token + tail);
    StripLeftDrops(lead, token + tail);
    if token == "" {
      assert token + tail == tail;
      assert Strip(line) == Strip(tail);
      if forall c <- tail :: IsSpace(c) {
        assert tail + "" == tail;
        StripLeftDrops(tail, "");
      }
    } else {
      var x := StripRight(tail);
      assert token[0] in token && token[|token| - 1] in token;
      assert StripLeft(token + tail) == token + tail;
      StripRightKeeps(token, tail);
      assert Strip(line) == token + x && (x == "" || x[0] == tail[0]);
      TokenFirst(token, x);
      CommentMarks(token, x);
    }
  }

  lemma CommentMarks(token: string, x: string)
    requires token != "" && (forall c <- token :: !IsSpace(c)) && (x == "" || IsSpace(x[0]))
    ensures IsComment(token + x) <==> token[0] == '#' || token[0] == ';' || "//" <= token
  {
    var s := token + x;
    assert s[0] == token[0] && |"//"| == 2 && "//"[0] == '/' && "//"[1] == '/';
    assert |token| >= 2 ==> s[1] == token[1];
    assert |token| == 1 && |s| >= 2 ==> s[1] == x[0] && s[1] != '/';
  }

  /** What ends a line: feeds, tabulations and returns, and the separators of files, groups and records. */
  const LINE_ENDS: string := "\n\U{0B}\U{0C}\r\U{1C}\U{1D}\U{1E}"

  /** A list is read line by line, whatever ends its lines. */
  lemma ReadLineByLine(r: Reader, line: string, c: char, more: string)
    requires c in LINE_ENDS && forall x <- line :: x !in LINE_ENDS
    ensures TextBlocks(r, line + [c] + more) == LineBlocks(r, line) + TextBlocks(r, more)
  {
    EndsAreThese();
    LineFirst(line, c, more);
    BlocksConcat(r, [line], TextLines(more));
    assert [line][..0] == [];
  }

  lemma EndsAreThese()
    ensures forall c :: IsLineEnd(c) <==> c in LINE_ENDS
  {
    assert |LINE_ENDS| == 7;
    assert LINE_ENDS[0] == '\n' && LINE_ENDS[1] == '\U{0B}' && LINE_ENDS[2] == '\U{0C}' && LINE_ENDS[3] == '\r';
    assert LINE_ENDS[4] == '\U{1C}' && LINE_ENDS[5] == '\U{1D}' && LINE_ENDS[6] == '\U{1E}';
  }

  lemma {:induction false} ReadAreBlocks(r: Reader, lines: seq<string>)
    requires ReadsBlocks(r)
    ensures forall b <- BlocksOfLines(r, lines) :: IsBlock(b)
  {
    if lines != [] {
      ReadAreBlocks(r, lines[..|lines| - 1]);
    }
  }

  // ---- The index as a value ----

  type Entries = map<string, seq<Meta>>
  type Interval = (nat, nat, string)

  ghost function PairsOf(entries: Entries): set<Pair> {
    set k, i | k in entries && 0 <= i < |entries[k]| :: (k, entries[k][i].source)
  }

  lemma PairIn(entries: Entries, k: string, source: string)
    ensures (k, source) in PairsOf(entries) <==> k in entries && HasSource(entries[k], source)
  {
    if k in entries && HasSource(entries[k], source) {
      var i :| 0 <= i < |entries[k]| && entries[k][i].source == source;
      assert (k, entries[k][i].source) in PairsOf(entries);
    }
  }

  /** The pairs that a list of blocks stands for. */
  ghost function BlockPairs(blocks: seq<Block>, source: string): set<Pair> {
    set b | b in blocks :: (KeyOf(b), source)
  }

  ghost predicate HasInterval(networks: seq<Interval>, k: string) {
    exists i :: 0 <= i < |networks| && networks[i].2 == k
  }

  /** The exact set and the intervals name entries only. */
  ghost predicate Closed(entries: Entries, exact: set<string>, networks: seq<Interval>) {
    && exact <= entries.Keys
    && (forall i :: 0 <= i < |networks| ==> networks[i].2 in entries)
  }

  /** Every entry is in the exact set or has an interval of its own, and neither holds anything else;
      no entry of the exact set is a range of several addresses. */
  ghost predicate IndexOk(lib: Library, entries: Entries, exact: set<string>, networks: seq<Interval>) {
    && (forall k <- entries :: k in exact || HasInterval(networks, k))
    && (forall k <- exact :: k in entries && (Span(lib, k).None? || Single(lib, k)))
    && (forall i :: 0 <= i < |networks| ==>
          networks[i].2 in entries && Span(lib, networks[i].2) == Some((networks[i].0, networks[i].1)))
  }

  /** Only the plain dotted form of an address is ever looked up in the exact set. */
  predicate Findable(lib: Library, k: string) {
    Single(lib, k) ==> k == Dotted(Span(lib, k).value.0)
  }

  ghost function FindableOf(lib: Library, pairs: set<Pair>): set<Pair> {
    set p | p in pairs && Findable(lib, p.0)
  }

  /** What a query collects before deduplication. */
  ghost predicate Found(entries: Entries, exact: set<string>, networks: seq<Interval>, source: string, a: nat)
    requires Closed(entries, exact, networks)
  {
    || (Dotted(a) in exact && HasSource(entries[Dotted(a)], source))
    || HitAmong(entries, networks, source, a)
  }

  ghost predicate HitAmong(entries: Entries, networks: seq<Interval>, source: string, a: nat)
    requires Closed(entries, {}, networks)
  {
    exists i :: 0 <= i < |networks| && networks[i].0 <= a <= networks[i].1 && HasSource(entries[networks[i].2], source)
  }

  lemma HitAmongSnoc(entries: Entries, networks: seq<Interval>, n: Interval, source: string, a: nat)
    requires Closed(entries, {}, networks) && n.2 in entries
    ensures Closed(entries, {}, networks + [n])
    ensures HitAmong(entries, networks + [n], source, a) <==>
      HitAmong(entries, networks, source, a) || (n.0 <= a <= n.1 && HasSource(entries[n.2], source))
  {
    var more := networks + [n];
    assert more[|networks|] == n;
    assert forall i :: 0 <= i < |networks| ==> more[i] == networks[i];
  }

  lemma DottedSpan(lib: Library, a: nat)
    requires a <= ALL32
    ensures Span(lib, Dotted(a)) == Some((a, a))
  {
    ReadBack(a, 32);
  }

  /** What a query finds is listed, under a text that a lookup reaches. */
  lemma FoundIsListed(
    lib: Library, entries: Entries, exact: set<string>, networks: seq<Interval>, source: string, a: nat,
    pairs: set<Pair>)
    requires IndexOk(lib, entries, exact, networks) && Found(entries, exact, networks, source, a)
    requires Span(lib, Dotted(a)) == Some((a, a))
    requires forall p <- PairsOf(entries) :: p.0 == Dotted(a) || HasInterval(networks, p.0) ==> p in pairs
    ensures Listed(lib, pairs, source, a)
  {
    if Dotted(a) in exact && HasSource(entries[Dotted(a)], source) {
      PairIn(entries, Dotted(a), source);
      assert (Dotted(a), source) in pairs;
      assert Covers(lib, Dotted(a), a);
    } else {
      var i :| 0 <= i < |networks| && networks[i].0 <= a <= networks[i].1 && HasSource(entries[networks[i].2], source);
      var k := networks[i].2;
      PairIn(entries, k, source);
      assert HasInterval(networks, k);
      assert (k, source) in pairs;
      assert Covers(lib, k, a);
    }
  }

  lemma ExactIsDotted(lib: Library, k: string, a: nat)
    requires Single(lib, k) && Findable(lib, k) && Covers(lib, k, a)
    ensures k == Dotted(a)
  {
  }

  lemma IntervalIsHit(
    lib: Library, entries: Entries, exact: set<string>, networks: seq<Interval>, source: string, a: nat, k: string)
    requires IndexOk(lib, entries, exact, networks) && Closed(entries, {}, networks)
    requires HasInterval(networks, k) && k in entries && HasSource(entries[k], source) && Covers(lib, k, a)
    ensures HitAmong(entries, networks, source, a)
  {
    var i :| 0 <= i < |networks| && networks[i].2 == k;
    assert Span(lib, k) == Some((networks[i].0, networks[i].1));
  }

  lemma ListedIsFound(
    lib: Library, entries: Entries, exact: set<string>, networks: seq<Interval>, source: string, a: nat, k: string)
    requires IndexOk(lib, entries, exact, networks)
    requires k in entries && HasSource(entries[k], source) && Covers(lib, k, a)
    requires k in exact ==> Findable(lib, k)
    ensures Found(entries, exact, networks, source, a)
  {
    if k in exact {
      ExactIsDotted(lib, k, a);
    } else {
      IntervalIsHit(lib, entries, exact, networks, source, a, k);
    }
  }

  /** The index refines the naive scan as long as the exact set holds dotted forms only. */
  lemma IndexRefinesScan(
    lib: Library, entries: Entries, exact: set<string>, networks: seq<Interval>, source: string, a: nat)
    requires IndexOk(lib, entries, exact, networks) && a <= ALL32
    requires forall k <- exact :: Findable(lib, k)
    ensures Found(entries, exact, networks, source, a) <==> Listed(lib, PairsOf(entries), source, a)
  {
    DottedSpan(lib, a);
    if Found(entries, exact, networks, source, a) {
      FoundIsListed(lib, entries, exact, networks, source, a, PairsOf(entries));
    }
    if Listed(lib, PairsOf(entries), source, a) {
      var k :| (k, source) in PairsOf(entries) && Covers(lib, k, a);
      PairIn(entries, k, source);
      ListedIsFound(lib, entries, exact, networks, source, a, k);
    }
  }

  /** No interval is a single address. */
  predicate ProperIntervals(networks: seq<Interval>) {
    forall i :: 0 <= i < |networks| ==> networks[i].0 != networks[i].1
  }

  lemma IntervalFindable(
    lib: Library, entries: Entries, exact: set<string>, networks: seq<Interval>, k: string)
    requires IndexOk(lib, entries, exact, networks) && ProperIntervals(networks) && HasInterval(networks, k)
    ensures Findable(lib, k)
  {
    var i :| 0 <= i < |networks| && networks[i].2 == k;
    assert Span(lib, k) == Some((networks[i].0, networks[i].1));
  }

  /** After a reload the exact set takes every single-address text, so the texts that are not
      findable are never matched. */
  lemma ReloadedFindsFindable(
    lib: Library, entries: Entries, exact: set<string>, networks: seq<Interval>, source: string, a: nat)
    requires IndexOk(lib, entries, exact, networks) && ProperIntervals(networks) && a <= ALL32
    ensures Found(entries, exact, networks, source, a) <==>
      Listed(lib, FindableOf(lib, PairsOf(entries)), source, a)
  {
    DottedSpan(lib, a);
    var pairs := FindableOf(lib, PairsOf(entries));
    if Found(entries, exact, networks, source, a) {
      forall p | p in PairsOf(entries) && (p.0 == Dotted(a) || HasInterval(networks, p.0))
        ensures p in pairs
      {
        if HasInterval(networks, p.0) {
          IntervalFindable(lib, entries, exact, networks, p.0);
        }
      }
      FoundIsListed(lib, entries, exact, networks, source, a, pairs);
    }
    if Listed(lib, pairs, source, a) {
      var k :| (k, source) in pairs && Covers(lib, k, a);
      PairIn(entries, k, source);
      ListedIsFound(lib, entries, exact, networks, source, a, k);
    }
  }

  /** Every pair whose text cannot be found is backed by a findable entry of the same source. */
  ghost predicate Backed(lib: Library, pairs: set<Pair>) {
    forall k, s :: (k, s) in pairs && !Findable(lib, k) ==>
      exists k' :: (k', s) in pairs && Findable(lib, k') && Covers(lib, k', Span(lib, k).value.0)
  }

  /** The findable pairs list every source at every address. */
  ghost predicate SameListing(lib: Library, pairs: set<Pair>) {
    forall s, a :: 0 <= a <= ALL32 ==>
      (Listed(lib, FindableOf(lib, pairs), s, a) <==> Listed(lib, pairs, s, a))
  }

  /** Exactly when a reload answers every query as before: every "/32" piece of a range must be
      covered by another entry of its source. */
  lemma ReloadIsExact(lib: Library, pairs: set<Pair>)
    requires forall k, s :: (k, s) in pairs && Single(lib, k) ==> Span(lib, k).value.0 <= ALL32
    ensures Backed(lib, pairs) <==> SameListing(lib, pairs)
  {
    var findable := FindableOf(lib, pairs);
    if Backed(lib, pairs) {
      forall s, a | 0 <= a <= ALL32 && Listed(lib, pairs, s, a)
        ensures Listed(lib, findable, s, a)
      {
        var k :| (k, s) in pairs && Covers(lib, k, a);
        if Findable(lib, k) {
          assert (k, s) in findable;
        } else {
          var k' :| (k', s) in pairs && Findable(lib, k') && Covers(lib, k', Span(lib, k).value.0);
          assert (k', s) in findable;
        }
      }
    }
    if SameListing(lib, pairs) {
      forall k, s | (k, s) in pairs && !Findable(lib, k)
        ensures exists k' :: (k', s) in pairs && Findable(lib, k') && Covers(lib, k', Span(lib, k).value.0)
      {
        var a := Span(lib, k).value.0;
        assert Covers(lib, k, a);
        assert Listed(lib, pairs, s, a);
        var k' :| (k', s) in findable && Covers(lib, k', a);
      }
    }
  }

  /** A range that ends in a single address is such a piece: "10.0.0.1/32" is lost by a reload. */
  lemma RangePieceLost(lib: Library, source: string)
    ensures var k := KeyOf(Net(0x0A00_0001, 32));
            IsBlock(Net(0x0A00_0001, 32)) && !Findable(lib, k) && !Backed(lib, {(k, source)})
            && Listed(lib, {(k, source)}, source, 0x0A00_0001)
  {
    var b := Net(0x0A00_0001, 32);
    assert Pow2(0) == 1;
    KeyRange(lib, b);
    var k := KeyOf(b);
    NoSlash(b.base);
    assert k[|Dotted(b.base)|] == '/';
    assert '/' in k;
    assert Covers(lib, k, b.base) && (k, source) in {(k, source)};
  }

  // ---- Adding one entry ----

  function AddTo(entries: Entries, k: string, m: Meta): Entries {
    if k !in entries then entries[k := [m]]
    else if HasSource(entries[k], m.source) then entries
    else entries[k := entries[k] + [m]]
  }

  lemma AddedPairs(entries: Entries, k: string, m: Meta)
    ensures PairsOf(AddTo(entries, k, m)) == PairsOf(entries) + {(k, m.source)}
  {
    var entries' := AddTo(entries, k, m);
    forall k', s
      ensures (k', s) in PairsOf(entries') <==> (k', s) in PairsOf(entries) || (k' == k && s == m.source)
    {
      PairIn(entries, k', s);
      PairIn(entries', k', s);
      if k' == k && k in entries && !HasSource(entries[k], m.source) {
        AppendSource(entries[k], m, s);
      } else if k' == k && k !in entries {
        assert entries'[k][0] == m;
      }
    }
  }

  lemma AppendSource(ms: seq<Meta>, m: Meta, s: string)
    ensures HasSource(ms + [m], s) <==> HasSource(ms, s) || s == m.source
  {
    assert (ms + [m])[|ms|] == m;
    assert forall i :: 0 <= i < |ms| ==> (ms + [m])[i] == ms[i];
  }

  lemma AddHost(lib: Library, entries: Entries, exact: set<string>, networks: seq<Interval>, k: string, m: Meta)
    requires IndexOk(lib, entries, exact, networks) && (Span(lib, k).None? || Single(lib, k))
    ensures IndexOk(lib, AddTo(entries, k, m), exact + {k}, networks)
  {
  }

  lemma AddKnown(lib: Library, entries: Entries, exact: set<string>, networks: seq<Interval>, k: string, m: Meta)
    requires IndexOk(lib, entries, exact, networks) && k in entries
    ensures IndexOk(lib, AddTo(entries, k, m), exact, networks)
  {
  }

  lemma AddNetwork(lib: Library, entries: Entries, exact: set<string>, networks: seq<Interval>, k: string, m: Meta)
    requires IndexOk(lib, entries, exact, networks) && Span(lib, k).Some?
    ensures IndexOk(lib, AddTo(entries, k, m), exact,
      networks + [(Span(lib, k).value.0, Span(lib, k).value.1, k)])
  {
    var networks' := networks + [(Span(lib, k).value.0, Span(lib, k).value.1, k)];
    assert networks'[|networks|].2 == k;
    forall x | x in entries && HasInterval(networks, x)
      ensures HasInterval(networks', x)
    {
      var i :| 0 <= i < |networks| && networks[i].2 == x;
      assert networks'[i].2 == x;
    }
  }

  // ---- The table ----

  type Table = map<Pair, Meta>

  function PutRows(t: Table, rows: seq<DbRow>): Table
    decreases |rows|
  {
    if rows == [] then t
    else PutRows(t[(rows[0].entry, rows[0].meta.source) := rows[0].meta], rows[1..])
  }

  ghost function KeptKeys(t: Table, source: string): set<Pair> {
    set p | p in t && p.1 != source
  }

  /** Every row is stored under its own source. */
  ghost predicate ByOwner(t: Table) {
    forall p <- t :: t[p].source == p.1
  }

  /** Stored are the old rows and the new ones, each under its own source. */
  lemma {:induction false} PutMeans(t: Table, rows: seq<DbRow>, p: Pair)
    ensures var t' := PutRows(t, rows);
      && (p in t' <==> p in t || p in RowPairs(rows))
      && (p in t' ==> (p in t && t'[p] == t[p]) || (DbRow(p.0, t'[p]) in rows && t'[p].source == p.1))
      && (ByOwner(t) ==> ByOwner(t'))
    decreases |rows|
  {
    if rows != [] {
      var r := rows[0];
      PutMeans(t[(r.entry, r.meta.source) := r.meta], rows[1..], p);
      assert rows == [r] + rows[1..];
      assert p in RowPairs(rows) <==> p == (r.entry, r.meta.source) || p in RowPairs(rows[1..]) by {
        assert forall i :: 0 <= i < |rows| - 1 ==> rows[1..][i] == rows[i + 1];
      }
    }
  }

  /** The rows a SELECT returns: every stored row once, in any order. */
  ghost predicate Selects(rows: seq<DbRow>, t: Table) {
    forall k, m :: DbRow(k, m) in rows <==> (k, m.source) in t && t[(k, m.source)] == m
  }

  ghost function RowPairs(rows: seq<DbRow>): set<Pair> {
    set i | 0 <= i < |rows| :: (rows[i].entry, rows[i].meta.source)
  }

  lemma RowPairsSnoc(rows: seq<DbRow>, r: DbRow)
    ensures RowPairs(rows + [r]) == RowPairs(rows) + {(r.entry, r.meta.source)}
  {
    var more := rows + [r];
    assert more[|rows|] == r;
    assert forall i :: 0 <= i < |rows| ==> more[i] == rows[i];
  }

  lemma SelectedPairs(rows: seq<DbRow>, t: Table)
    requires Selects(rows, t) && ByOwner(t)
    ensures RowPairs(rows) == t.Keys
  {
    forall p | p in t
      ensures p in RowPairs(rows)
    {
      assert DbRow(p.0, t[p]) in rows;
      var i :| 0 <= i < |rows| && rows[i] == DbRow(p.0, t[p]);
      assert (rows[i].entry, rows[i].meta.source) == p;
    }
    forall p | p in RowPairs(rows)
      ensures p in t
    {
      var i :| 0 <= i < |rows| && p == (rows[i].entry, rows[i].meta.source);
      assert DbRow(rows[i].entry, rows[i].meta) in rows;
    }
  }

  // ---- Answers ----

  predicate Distinct(hits: seq<Meta>) {
    forall i, j :: 0 <= i < j < |hits| ==> hits[i].source != hits[j].source
  }

  /** A hit list names each listed source exactly once and nobody else. */
  ghost predicate Reports(lib: Library, hits: seq<Meta>, pairs: set<Pair>, a: nat) {
    && Distinct(hits)
    && (forall s :: HasSource(hits, s) <==> Listed(lib, pairs, s, a))
  }

  function SourcesOf(hits: seq<Meta>): set<string> {
    set i | 0 <= i < |hits| :: hits[i].source
  }

  lemma {:induction false} DistinctCount(hits: seq<Meta>)
    requires Distinct(hits)
    ensures |SourcesOf(hits)| == |hits|
  {
    if hits != [] {
      var n := |hits| - 1;
      DistinctCount(hits[..n]);
      assert SourcesOf(hits) == SourcesOf(hits[..n]) + {hits[n].source};
      assert hits[n].source !in SourcesOf(hits[..n]);
    }
  }

  /** Two answers about the same pairs have the same length, which is the hit count of a rating. */
  lemma SameHitCount(lib: Library, x: seq<Meta>, y: seq<Meta>, pairs: set<Pair>, a: nat)
    requires Reports(lib, x, pairs, a) && Reports(lib, y, pairs, a)
    ensures |x| == |y|
  {
    DistinctCount(x);
    DistinctCount(y);
    forall s
      ensures s in SourcesOf(x) <==> s in SourcesOf(y)
    {
      assert HasSource(x, s) <==> HasSource(y, s);
      assert s in SourcesOf(x) <==> HasSource(x, s);
      assert s in SourcesOf(y) <==> HasSource(y, s);
    }
    assert SourcesOf(x) == SourcesOf(y);
  }

  /** The first record of every source, in order. */
  function FirstOfEach(ms: seq<Meta>): seq<Meta> {
    if ms == [] then []
    else
      var init, m := ms[..|ms| - 1], ms[|ms| - 1];
      FirstOfEach(init) + if HasSource(init, m.source) then [] else [m]
  }

  /** No earlier record has the source of record i. */
  predicate IsFirst(ms: seq<Meta>, i: nat) {
    i < |ms| && forall j :: 0 <= j < i ==> ms[j].source != ms[i].source
  }

  lemma FirstInInit(ms: seq<Meta>, i: nat)
    requires i < |ms| - 1
    ensures IsFirst(ms, i) <==> IsFirst(ms[..|ms| - 1], i)
  {
  }

  lemma LastIsFirst(ms: seq<Meta>)
    requires ms != []
    ensures IsFirst(ms, |ms| - 1) <==> !HasSource(ms[..|ms| - 1], ms[|ms| - 1].source)
  {
    var init := ms[..|ms| - 1];
    assert forall j :: 0 <= j < |init| ==> init[j] == ms[j];
  }

  lemma {:induction false} FirstsAreKept(ms: seq<Meta>, i: nat)
    requires IsFirst(ms, i)
    ensures ms[i] in FirstOfEach(ms)
    decreases |ms|
  {
    if i < |ms| - 1 {
      FirstInInit(ms, i);
      FirstsAreKept(ms[..|ms| - 1], i);
    } else {
      LastIsFirst(ms);
    }
  }

  lemma {:induction false} KeptAreFirsts(ms: seq<Meta>, m: Meta) returns (i: nat)
    requires m in FirstOfEach(ms)
    ensures IsFirst(ms, i) && ms[i] == m
    decreases |ms|
  {
    var init, last := ms[..|ms| - 1], ms[|ms| - 1];
    if m in FirstOfEach(init) {
      i := KeptAreFirsts(init, m);
      FirstInInit(ms, i);
    } else {
      LastIsFirst(ms);
      i := |ms| - 1;
    }
  }

  /** Those are the records whose source no earlier one has. */
  lemma FirstOfEachAre(ms: seq<Meta>, m: Meta)
    ensures m in FirstOfEach(ms) <==> exists i: nat :: IsFirst(ms, i) && ms[i] == m
  {
    if m in FirstOfEach(ms) {
      var i := KeptAreFirsts(ms, m);
    }
    if i: nat :| IsFirst(ms, i) && ms[i] == m {
      FirstsAreKept(ms, i);
    }
  }

  method Deduplicate(matches: seq<Meta>) returns (hits: seq<Meta>)
    ensures hits == FirstOfEach(matches)
    ensures Distinct(hits)
    ensures forall s :: HasSource(hits, s) <==> HasSource(matches, s)
  {
    var seen: set<string> := {};
    hits := [];
    for i := 0 to |matches|
      invariant hits == FirstOfEach(matches[..i])
      invariant forall s :: s in seen <==> HasSource(matches[..i], s)
      invariant forall s :: HasSource(hits, s) <==> s in seen
      invariant Distinct(hits)
    {
      var m := matches[i];
      assert matches[..i + 1][..i] == matches[..i];
      forall s ensures HasSource(matches[..i + 1], s) <==> HasSource(matches[..i], s) || s == m.source {
        assert matches[..i + 1] == matches[..i] + [m];
        AppendSource(matches[..i], m, s);
      }
      if m.source in seen {
        continue;
      }
      seen := seen + {m.source};
      forall s ensures HasSource(hits + [m], s) <==> HasSource(hits, s) || s == m.source {
        AppendSource(hits, m, s);
      }
      assert forall j :: 0 <= j < |hits| ==> HasSource(hits, hits[j].source);
      hits := hits + [m];
    }
    assert matches[..|matches|] == matches;
  }

  /** The records that a query meets, those of the exact text first, then those of the ranges in order. */
  function MatchesAt(entries: Entries, exact: set<string>, networks: seq<Interval>, a: nat): seq<Meta> {
    RecordsAt(entries, Dotted(a), Dotted(a) in exact) + RangeMatches(entries, networks, a)
  }

  function RecordsAt(entries: Entries, k: string, hit: bool): seq<Meta> {
    if hit && k in entries then entries[k] else []
  }

  function RangeMatches(entries: Entries, networks: seq<Interval>, a: nat): seq<Meta> {
    if networks == [] then []
    else
      var n := networks[|networks| - 1];
      RangeMatches(entries, networks[..|networks| - 1], a) + RecordsAt(entries, n.2, n.0 <= a <= n.1)
  }

  predicate OnRecord(entries: Entries, k: string, source: string) {
    k in entries && HasSource(entries[k], source)
  }

  /** The records of an index, each with its text. */
  ghost function RecordsOf(entries: Entries): set<DbRow> {
    set k, i | k in entries && 0 <= i < |entries[k]| :: DbRow(k, entries[k][i])
  }

  ghost function RowSet(rows: seq<DbRow>): set<DbRow> {
    set r | r in rows
  }

  lemma AddedRecords(entries: Entries, k: string, m: Meta)
    ensures RecordsOf(AddTo(entries, k, m)) ==
      RecordsOf(entries) + if OnRecord(entries, k, m.source) then {} else {DbRow(k, m)}
  {
    var entries' := AddTo(entries, k, m);
    if !OnRecord(entries, k, m.source) {
      assert entries'[k] == (if k in entries then entries[k] else []) + [m];
      forall r
        ensures r in RecordsOf(entries') <==> r in RecordsOf(entries) || r == DbRow(k, m)
      {
        RecordIn(entries, r);
        RecordIn(entries', r);
      }
    }
  }

  lemma RecordIn(entries: Entries, r: DbRow)
    ensures r in RecordsOf(entries) <==> r.entry in entries && r.meta in entries[r.entry]
  {
    if r.entry in entries && r.meta in entries[r.entry] {
      var i :| 0 <= i < |entries[r.entry]| && entries[r.entry][i] == r.meta;
      assert DbRow(r.entry, entries[r.entry][i]) in RecordsOf(entries);
    }
  }

  /** The rows have been added: their pairs, `added` of them new, and no records but theirs. */
  ghost predicate Progress(before: Entries, after: Entries, rows: seq<DbRow>, added: nat) {
    && PairsOf(after) == PairsOf(before) + RowPairs(rows)
    && |PairsOf(after)| == |PairsOf(before)| + added
    && RecordsOf(before) <= RecordsOf(after) <= RecordsOf(before) + RowSet(rows)
  }

  lemma NoProgress(entries: Entries)
    ensures Progress(entries, entries, [], 0)
  {
    assert RowPairs([]) == {};
  }

  lemma OneRowOn(before: Entries, after: Entries, rows: seq<DbRow>, r: DbRow, added: nat)
    requires Progress(before, after, rows, added)
    ensures Progress(before, AddTo(after, r.entry, r.meta), rows + [r],
      if OnRecord(after, r.entry, r.meta.source) then added else added + 1)
  {
    OneMoreRecord(after, r.entry, r.meta);
    AddedRecords(after, r.entry, r.meta);
    RowPairsSnoc(rows, r);
    RowSetSnoc(rows, r);
  }

  lemma RowSetSnoc(rows: seq<DbRow>, r: DbRow)
    ensures RowSet(rows + [r]) == RowSet(rows) + {r}
  {
  }

  lemma OneMoreRecord(entries: Entries, k: string, m: Meta)
    ensures PairsOf(AddTo(entries, k, m)) == PairsOf(entries) + {(k, m.source)}
    ensures |PairsOf(AddTo(entries, k, m))| == |PairsOf(entries)| + if OnRecord(entries, k, m.source) then 0 else 1
  {
    AddedPairs(entries, k, m);
    PairIn(entries, k, m.source);
    OneMore(PairsOf(entries), (k, m.source));
  }

  lemma OneMore(pairs: set<Pair>, p: Pair)
    ensures |pairs + {p}| == |pairs| + if p in pairs then 0 else 1
  {
    if p in pairs {
      assert pairs + {p} == pairs;
    }
  }

  /** The rows of the other sources. */
  function KeptRows(t: Table, source: string): Table {
    map p | p in t && p.1 != source :: t[p]
  }

  /** The stored rows after a source is replaced: those of others as before, its own from its list. */
  ghost predicate RowsReplaced(before: Table, after: Table, rows: seq<DbRow>, source: string) {
    && (forall p <- after :: p.1 != source ==> p in before && after[p] == before[p])
    && (forall p <- after :: p.1 == source ==> DbRow(p.0, after[p]) in rows)
  }

  predicate SourceIs(rows: seq<DbRow>, source: string) {
    forall r <- rows :: r.meta.source == source
  }

  lemma PutReplaces(t: Table, rows: seq<DbRow>, source: string)
    requires SourceIs(rows, source)
    ensures var t' := PutRows(KeptRows(t, source), rows);
      && t'.Keys == KeptKeys(t, source) + RowPairs(rows) && RowsReplaced(t, t', rows, source)
      && (ByOwner(t) ==> ByOwner(t'))
  {
    var kept := KeptRows(t, source);
    var t' := PutRows(kept, rows);
    assert kept.Keys == KeptKeys(t, source) && (ByOwner(t) ==> ByOwner(kept));
    PutMeans(kept, rows, ("", ""));
    forall p
      ensures p in t' <==> p in KeptKeys(t, source) || p in RowPairs(rows)
      ensures p in t' && p.1 != source ==> p in t && t'[p] == t[p]
      ensures p in t' && p.1 == source ==> DbRow(p.0, t'[p]) in rows
    {
      PutMeans(kept, rows, p);
    }
  }

  /** The rows that a list of blocks stands for: their texts, each with its record. */
  function RowsOf(blocks: seq<Block>, source: string, name: string, reason: Block -> string): seq<DbRow> {
    seq(|blocks|, i requires 0 <= i < |blocks| => DbRow(KeyOf(blocks[i]), Meta(source, name, reason(blocks[i]))))
  }

  lemma RowsOfNext(blocks: seq<Block>, i: nat, source: string, name: string, reason: Block -> string)
    requires i < |blocks|
    ensures RowsOf(blocks[..i + 1], source, name, reason) ==
      RowsOf(blocks[..i], source, name, reason) + [DbRow(KeyOf(blocks[i]), Meta(source, name, reason(blocks[i])))]
  {
    assert forall j :: 0 <= j < i ==> blocks[..i + 1][j] == blocks[..i][j];
  }

  lemma KeptAll(t: Table, source: string)
    requires forall p <- t :: p.1 != source
    ensures KeptKeys(t, source) == t.Keys
  {
  }

  lemma RowsOfPairs(blocks: seq<Block>, source: string, name: string, reason: Block -> string)
    ensures var rows := RowsOf(blocks, source, name, reason);
      RowPairs(rows) == BlockPairs(blocks, source) && SourceIs(rows, source)
  {
    var rows := RowsOf(blocks, source, name, reason);
    forall p
      ensures p in RowPairs(rows) <==> p in BlockPairs(blocks, source)
    {
      if p in RowPairs(rows) {
        var i :| 0 <= i < |rows| && p == (rows[i].entry, rows[i].meta.source);
        assert blocks[i] in blocks;
      }
      if p in BlockPairs(blocks, source) {
        var b :| b in blocks && p == (KeyOf(b), source);
        var i :| 0 <= i < |blocks| && blocks[i] == b;
        assert rows[i].entry == KeyOf(b);
      }
    }
  }

  class Blacklist {
    const lib: Library
    var entries: Entries
    var exact: set<string>
    var networks: seq<Interval>
    var table: Table

    ghost predicate Valid()
      reads this
    {
      && IndexOk(lib, entries, exact, networks)
      && ByOwner(table)
    }

    constructor (lib: Library)
      ensures this.lib == lib
      ensures Valid() && entries == map[] && exact == {} && networks == [] && table == map[]
    {
      this.lib := lib;
      entries, exact, networks, table := map[], {}, [], map[];
    }

    method AddEntry(k: string, m: Meta) returns (added: bool)
      modifies this`entries
      ensures entries == AddTo(old(entries), k, m)
      ensures added <==> !(k in old(entries) && HasSource(old(entries)[k], m.source))
    {
      if k !in entries {
        entries := entries[k := [m]];
        return true;
      }
      var ms := entries[k];
      for i := 0 to |ms|
        invariant !HasSource(ms[..i], m.source)
        modifies {}
      {
        if ms[i].source == m.source {
          return false;
        }
        AppendSource(ms[..i], ms[i], m.source);
        assert ms[..i + 1] == ms[..i] + [ms[i]];
      }
      assert ms[..|ms|] == ms;
      entries := entries[k := ms + [m]];
      return true;
    }

    method ReplaceSource(source: string, rows: seq<DbRow>)
      requires Valid() && SourceIs(rows, source)
      modifies this`table
      ensures Valid()
      ensures table.Keys == KeptKeys(old(table), source) + RowPairs(rows)
      ensures RowsReplaced(old(table), table, rows, source)
    {
      PutReplaces(table, rows, source);
      table := PutRows(map p | p in table && p.1 != source :: table[p], rows);
    }

    ghost predicate DottedOnly()
      reads this
    {
      forall k <- exact :: Findable(lib, k)
    }

    /** One parsed block; a new entry is indexed, and a known entry of a further source is indexed
        again. */
    method AddBlock(b: Block, m: Meta) returns (added: bool)
      requires IndexOk(lib, entries, exact, networks) && IsBlock(b)
      modifies this`entries, this`exact, this`networks
      ensures IndexOk(lib, entries, exact, networks)
      ensures PairsOf(entries) == old(PairsOf(entries)) + {(KeyOf(b), m.source)}
      ensures entries == AddTo(old(entries), KeyOf(b), m)
      ensures added <==> !OnRecord(old(entries), KeyOf(b), m.source)
      ensures old(DottedOnly()) ==> DottedOnly()
    {
      var k := KeyOf(b);
      KeyRange(lib, b);
      AddedPairs(entries, k, m);
      if b.Host? {
        AddHost(lib, entries, exact, networks, k, m);
      } else {
        AddNetwork(lib, entries, exact, networks, k, m);
      }
      if k in entries {
        AddKnown(lib, entries, exact, networks, k, m);
      }
      added := AddEntry(k, m);
      if added {
        if b.Host? {
          exact := exact + {k};
        } else {
          networks := networks + [(b.base, BlockHi(b.base, b.plen), k)];
        }
      }
    }

    /** Parsing adds the pairs of the list, keeps the index in order, and keeps memory and table in
        step for a source that is parsed once. */
    method Parse(blocks: seq<Block>, source: string, name: string, reason: Block -> string, persist: bool)
      returns (added: nat)
      requires Valid() && forall b <- blocks :: IsBlock(b)
      modifies this
      ensures Valid()
      ensures PairsOf(entries) == old(PairsOf(entries)) + BlockPairs(blocks, source)
      ensures old(RecordsOf(entries)) <= RecordsOf(entries)
        <= old(RecordsOf(entries)) + RowSet(RowsOf(blocks, source, name, reason))
      ensures added == |PairsOf(entries)| - |old(PairsOf(entries))|
      ensures persist && blocks != [] ==> RowsReplaced(old(table), table, RowsOf(blocks, source, name, reason), source)
      ensures old(DottedOnly()) ==> DottedOnly()
      ensures table == old(table) || table.Keys == KeptKeys(old(table), source) + BlockPairs(blocks, source)
      ensures table == old(table) <== !persist || blocks == []
      ensures persist && old(table.Keys == PairsOf(entries)) && (forall p <- old(table) :: p.1 != source)
        ==> table.Keys == PairsOf(entries)
    {
      var rows;
      RowsOfPairs(blocks, source, name, reason);
      added, rows := Index(blocks, source, name, reason);
      if persist && rows != [] {
        if forall p <- table :: p.1 != source {
          KeptAll(table, source);
        }
        ReplaceSource(source, rows);
      }
    }

    /** A downloaded list: its comment lines are skipped, the others read by their first token. */
    method ParseText(text: string, r: Reader, source: string, name: string, reason: Block -> string, persist: bool)
      returns (added: nat)
      requires Valid() && ReadsBlocks(r)
      modifies this
      ensures Valid()
      ensures PairsOf(entries) == old(PairsOf(entries)) + BlockPairs(TextBlocks(r, text), source)
      ensures old(RecordsOf(entries)) <= RecordsOf(entries)
        <= old(RecordsOf(entries)) + RowSet(RowsOf(TextBlocks(r, text), source, name, reason))
      ensures table == old(table) ||
        table.Keys == KeptKeys(old(table), source) + BlockPairs(TextBlocks(r, text), source)
      ensures table == old(table) <== !persist || TextBlocks(r, text) == []
    {
      var lines := TextLines(text);
      var blocks: seq<Block> := [];
      for i := 0 to |lines|
        invariant blocks == BlocksOfLines(r, lines[..i])
        modifies {}
      {
        assert lines[..i + 1][..i] == lines[..i];
        var line := Strip(lines[i]);
        if line == "" || HasPrefix(line, "#") || HasPrefix(line, ";") || HasPrefix(line, "//") {
          continue;
        }
        var token := FirstToken(line);
        blocks := blocks + if '-' in token && '/' !in token then r.range(token) else r.network(token);
      }
      assert lines[..|lines|] == lines;
      ReadAreBlocks(r, lines);
      added := Parse(blocks, source, name, reason, persist);
    }

    method Index(blocks: seq<Block>, source: string, name: string, reason: Block -> string)
      returns (added: nat, rows: seq<DbRow>)
      requires IndexOk(lib, entries, exact, networks) && forall b <- blocks :: IsBlock(b)
      modifies this`entries, this`exact, this`networks
      ensures IndexOk(lib, entries, exact, networks)
      ensures rows == RowsOf(blocks, source, name, reason) && Progress(old(entries), entries, rows, added)
      ensures old(DottedOnly()) ==> DottedOnly()
    {
      rows, added := [], 0;
      NoProgress(entries);
      for i := 0 to |blocks|
        invariant IndexOk(lib, entries, exact, networks)
        invariant rows == RowsOf(blocks[..i], source, name, reason) && Progress(old(entries), entries, rows, added)
        invariant old(DottedOnly()) ==> DottedOnly()
      {
        var m := Meta(source, name, reason(blocks[i]));
        RowsOfNext(blocks, i, source, name, reason);
        added, rows := IndexOne(blocks[i], m, rows, added, old(entries));
      }
      assert blocks[..|blocks|] == blocks;
    }

    /** One block of a list, on top of those added so far. */
    method IndexOne(b: Block, m: Meta, rows: seq<DbRow>, added: nat, ghost before: Entries)
      returns (added': nat, rows': seq<DbRow>)
      requires IndexOk(lib, entries, exact, networks) && IsBlock(b) && Progress(before, entries, rows, added)
      modifies this`entries, this`exact, this`networks
      ensures IndexOk(lib, entries, exact, networks)
      ensures rows' == rows + [DbRow(KeyOf(b), m)] && Progress(before, entries, rows', added')
      ensures old(DottedOnly()) ==> DottedOnly()
    {
      OneRowOn(before, entries, rows, DbRow(KeyOf(b), m), added);
      var isNew := AddBlock(b, m);
      added', rows' := if isNew then added + 1 else added, rows + [DbRow(KeyOf(b), m)];
    }

    method Collect(a: nat) returns (matches: seq<Meta>)
      requires Closed(entries, exact, networks)
      ensures matches == MatchesAt(entries, exact, networks, a)
      ensures forall s :: HasSource(matches, s) <==> Found(entries, exact, networks, s, a)
    {
      matches := [];
      if Dotted(a) in exact {
        matches := entries[Dotted(a)];
      }
      ghost var first := matches;
      for i := 0 to |networks|
        invariant matches == first + RangeMatches(entries, networks[..i], a)
      {
        assert networks[..i + 1][..i] == networks[..i];
        if networks[i].0 <= a <= networks[i].1 {
          matches := matches + entries[networks[i].2];
        }
      }
      assert networks[..|networks|] == networks;
      forall s {
        RangeSources(entries, networks, s, a);
      }
      Concatenated(first, RangeMatches(entries, networks, a));
    }

    /** One record per source with an entry that holds the address. */
    method IsBlacklisted(a: nat) returns (listed: bool, hits: seq<Meta>)
      requires Valid() && a <= ALL32
      ensures listed <==> hits != []
      ensures Distinct(hits)
      ensures hits == FirstOfEach(MatchesAt(entries, exact, networks, a))
      ensures forall s :: HasSource(hits, s) <==> Found(entries, exact, networks, s, a)
    {
      var matches := Collect(a);
      hits := Deduplicate(matches);
      listed := hits != [];
    }

    method SpanOfEntry(k: string) returns (span: Option<(nat, nat)>)
      ensures span == Span(lib, k)
    {
      var range := FastCidrRange(k);
      match range
      case Known(lo, hi) => return Some((lo, hi));
      case Rejected => return None;
      case Library => return if k in lib then Some(lib[k]) else None;
    }

    /** One stored row; a text that nobody can read goes to the exact set too. */
    method LoadRow(k: string, m: Meta)
      requires IndexOk(lib, entries, exact, networks) && ProperIntervals(networks)
      modifies this`entries, this`exact, this`networks
      ensures IndexOk(lib, entries, exact, networks) && ProperIntervals(networks)
      ensures PairsOf(entries) == old(PairsOf(entries)) + {(k, m.source)}
    {
      AddedPairs(entries, k, m);
      if k in entries {
        AddKnown(lib, entries, exact, networks, k, m);
        var added := AddEntry(k, m);
        return;
      }
      var span := SpanOfEntry(k);
      if span.None? || span.value.0 == span.value.1 {
        AddHost(lib, entries, exact, networks, k, m);
        exact := exact + {k};
      } else {
        AddNetwork(lib, entries, exact, networks, k, m);
        networks := networks + [(span.value.0, span.value.1, k)];
      }
      entries := entries[k := [m]];
    }

    /** Reloading takes exactly the stored pairs; single addresses and unreadable texts go to the
        exact set whatever their text. */
    method LoadFromTable(rows: seq<DbRow>)
      requires Valid() && Selects(rows, table)
      modifies this`entries, this`exact, this`networks
      ensures Valid() && PairsOf(entries) == table.Keys
      ensures ProperIntervals(networks)
    {
      SelectedPairs(rows, table);
      LoadRows(rows);
    }

    method LoadRows(rows: seq<DbRow>)
      modifies this`entries, this`exact, this`networks
      ensures IndexOk(lib, entries, exact, networks) && ProperIntervals(networks)
      ensures PairsOf(entries) == RowPairs(rows)
    {
      entries, exact, networks := map[], {}, [];
      for i := 0 to |rows|
        invariant IndexOk(lib, entries, exact, networks) && ProperIntervals(networks)
        invariant PairsOf(entries) == RowPairs(rows[..i])
      {
        RowPairsNext(rows, i);
        LoadRow(rows[i].entry, rows[i].meta);
      }
      assert rows[..|rows|] == rows;
    }
  }

  lemma RowPairsNext(rows: seq<DbRow>, i: nat)
    requires i < |rows|
    ensures RowPairs(rows[..i + 1]) == RowPairs(rows[..i]) + {(rows[i].entry, rows[i].meta.source)}
  {
    assert rows[..i + 1] == rows[..i] + [rows[i]];
    RowPairsSnoc(rows[..i], rows[i]);
  }

  lemma Concatenated(x: seq<Meta>, y: seq<Meta>)
    ensures forall s :: HasSource(x + y, s) <==> HasSource(x, s) || HasSource(y, s)
  {
    forall s ensures HasSource(x + y, s) <==> HasSource(x, s) || HasSource(y, s) {
      if HasSource(x, s) {
        var i :| 0 <= i < |x| && x[i].source == s;
        assert (x + y)[i].source == s;
      }
      if HasSource(y, s) {
        var i :| 0 <= i < |y| && y[i].source == s;
        assert (x + y)[|x| + i].source == s;
      }
    }
  }

  lemma {:induction false} RangeSources(entries: Entries, networks: seq<Interval>, s: string, a: nat)
    requires forall n <- networks :: n.2 in entries
    ensures HasSource(RangeMatches(entries, networks, a), s) <==> HitAmong(entries, networks, s, a)
  {
    if networks != [] {
      var init, n := networks[..|networks| - 1], networks[|networks| - 1];
      assert n in networks && forall x <- init :: x in networks;
      RangeSources(entries, init, s, a);
      HitAmongSnoc(entries, init, n, s, a);
      assert networks == init + [n];
      Concatenated(RangeMatches(entries, init, a), RecordsAt(entries, n.2, n.0 <= a <= n.1));
    }
  }

  // ---- The promises about whole lives of the object ----

  type Feed = (string, seq<Block>)

  predicate AreFeeds(feeds: seq<Feed>) {
    forall f <- feeds :: forall b <- f.1 :: IsBlock(b)
  }

  /** Every source is downloaded once. */
  predicate OncePerSource(feeds: seq<Feed>) {
    forall i, j :: 0 <= i < j < |feeds| ==> feeds[i].0 != feeds[j].0
  }

  /** The pairs that any sequence of lists stands for. */
  ghost function FeedPairs(feeds: seq<Feed>): set<Pair> {
    set f, b | f in feeds && b in f.1 :: (KeyOf(b), f.0)
  }

  lemma FeedPairsNext(feeds: seq<Feed>, i: nat)
    requires i < |feeds|
    ensures FeedPairs(feeds[..i + 1]) == FeedPairs(feeds[..i]) + BlockPairs(feeds[i].1, feeds[i].0)
  {
    assert feeds[..i + 1] == feeds[..i] + [feeds[i]];
    assert forall f :: f in feeds[..i + 1] <==> f in feeds[..i] || f == feeds[i];
  }

  /** A source that has not been downloaded yet owns no row. */
  lemma NotYet(feeds: seq<Feed>, i: nat)
    requires i < |feeds| && OncePerSource(feeds)
    ensures forall p <- FeedPairs(feeds[..i]) :: p.1 != feeds[i].0
  {
    forall p | p in FeedPairs(feeds[..i])
      ensures p.1 != feeds[i].0
    {
      var f, b :| f in feeds[..i] && b in f.1 && p == (KeyOf(b), f.0);
      var j :| 0 <= j < i && feeds[..i][j] == f;
    }
  }

  method ParseAll(lib: Library, feeds: seq<Feed>) returns (blacklist: Blacklist)
    requires AreFeeds(feeds)
    ensures fresh(blacklist) && blacklist.lib == lib && blacklist.Valid() && blacklist.DottedOnly()
    ensures PairsOf(blacklist.entries) == FeedPairs(feeds)
    ensures OncePerSource(feeds) ==> blacklist.table.Keys == FeedPairs(feeds)
  {
    blacklist := new Blacklist(lib);
    for i := 0 to |feeds|
      invariant fresh(blacklist) && blacklist.lib == lib && blacklist.Valid() && blacklist.DottedOnly()
      invariant PairsOf(blacklist.entries) == FeedPairs(feeds[..i])
      invariant OncePerSource(feeds) ==> blacklist.table.Keys == FeedPairs(feeds[..i])
    {
      FeedPairsNext(feeds, i);
      if OncePerSource(feeds) {
        NotYet(feeds, i);
      }
      var added := blacklist.Parse(feeds[i].1, feeds[i].0, feeds[i].0, b => "", true);
    }
    assert feeds[..|feeds|] == feeds;
  }

  method Ask(blacklist: Blacklist, a: nat) returns (hits: seq<Meta>)
    requires blacklist.Valid() && a <= ALL32
    ensures blacklist.DottedOnly() ==> Reports(blacklist.lib, hits, PairsOf(blacklist.entries), a)
    ensures ProperIntervals(blacklist.networks) ==>
      Reports(blacklist.lib, hits, FindableOf(blacklist.lib, PairsOf(blacklist.entries)), a)
  {
    var listed;
    listed, hits := blacklist.IsBlacklisted(a);
    if blacklist.DottedOnly() {
      forall s {
        IndexRefinesScan(blacklist.lib, blacklist.entries, blacklist.exact, blacklist.networks, s, a);
      }
    }
    if ProperIntervals(blacklist.networks) {
      forall s {
        ReloadedFindsFindable(blacklist.lib, blacklist.entries, blacklist.exact, blacklist.networks, s, a);
      }
    }
  }

  /** Any sequence of lists: a query names exactly the sources that list the address. */
  method ParseThenAsk(lib: Library, feeds: seq<Feed>, a: nat) returns (blacklist: Blacklist, hits: seq<Meta>)
    requires AreFeeds(feeds) && a <= ALL32
    ensures fresh(blacklist) && blacklist.lib == lib && blacklist.Valid()
    ensures PairsOf(blacklist.entries) == FeedPairs(feeds)
    ensures Reports(lib, hits, FeedPairs(feeds), a)
    ensures OncePerSource(feeds) ==> blacklist.table.Keys == FeedPairs(feeds)
  {
    blacklist := ParseAll(lib, feeds);
    hits := Ask(blacklist, a);
  }

  /** Reloading the stored rows: a query then names exactly the sources that list the address under
      a text that a lookup reaches; ReloadIsExact says when that is every listing source. */
  method ReloadThenAsk(blacklist: Blacklist, rows: seq<DbRow>, a: nat) returns (hits: seq<Meta>)
    requires blacklist.Valid() && Selects(rows, blacklist.table) && a <= ALL32
    modifies blacklist`entries, blacklist`exact, blacklist`networks
    ensures Reports(blacklist.lib, hits, FindableOf(blacklist.lib, blacklist.table.Keys), a)
  {
    blacklist.LoadFromTable(rows);
    hits := Ask(blacklist, a);
  }

  method SelectAll(t: Table) returns (rows: seq<DbRow>)
    requires ByOwner(t)
    ensures Selects(rows, t)
  {
    rows := [];
    var rest := t.Keys;
    while rest != {}
      invariant rest <= t.Keys
      invariant forall r :: r in rows <==>
        var p := (r.entry, r.meta.source); p in t && p !in rest && t[p] == r.meta
    {
      var p :| p in rest;
      rest := rest - {p};
      rows := rows + [DbRow(p.0, t[p])];
    }
  }

  /** Each source downloaded once, stored, the engine restarted: the answers before and after. When
      every unreachable text is backed they name the same sources. */
  method RestartBetween(lib: Library, feeds: seq<Feed>, a: nat)
    returns (before: seq<Meta>, after: seq<Meta>)
    requires AreFeeds(feeds) && OncePerSource(feeds) && a <= ALL32
    ensures Reports(lib, before, FeedPairs(feeds), a)
    ensures Reports(lib, after, FindableOf(lib, FeedPairs(feeds)), a)
    ensures Backed(lib, FeedPairs(feeds)) ==> Reports(lib, after, FeedPairs(feeds), a) && |after| == |before|
  {
    var blacklist;
    blacklist, before := ParseThenAsk(lib, feeds, a);
    var rows := SelectAll(blacklist.table);
    after := ReloadThenAsk(blacklist, rows, a);
    RestartIsExact(lib, feeds);
    if Backed(lib, FeedPairs(feeds)) {
      SameHitCount(lib, before, after, FeedPairs(feeds), a);
    }
  }

  /** A restart answers every query as before if and only if the lists are backed, for any lists. */
  lemma RestartIsExact(lib: Library, feeds: seq<Feed>)
    requires AreFeeds(feeds)
    ensures Backed(lib, FeedPairs(feeds)) <==> SameListing(lib, FeedPairs(feeds))
  {
    forall k, s | (k, s) in FeedPairs(feeds)
      ensures Span(lib, k).Some? && Span(lib, k).value.0 <= ALL32
    {
      var f, b :| f in feeds && b in f.1 && (k, s) == (KeyOf(b), f.0);
      BlocksAreKnown(lib, f.1, s);
      assert (k, s) in BlockPairs(f.1, s);
    }
    ReloadIsExact(lib, FeedPairs(feeds));
  }

  /** Lists without ranges hold hosts and networks shorter than 32 bits, and those survive a reload. */
  lemma HostsAndNetworksSurvive(lib: Library, blocks: seq<Block>, source: string)
    requires forall b <- blocks :: IsBlock(b) && (b.Net? ==> b.plen < 32)
    ensures Backed(lib, BlockPairs(blocks, source))
    ensures FindableOf(lib, BlockPairs(blocks, source)) == BlockPairs(blocks, source)
  {
    forall b | b in blocks
      ensures Findable(lib, KeyOf(b))
    {
      KeyRange(lib, b);
      if b.Net? {
        ProperBlock(b.base, b.plen);
      }
    }
  }

  lemma ProperBlock(base: nat, plen: nat)
    requires plen < 32 && BlockLo(base, plen) == base
    ensures BlockHi(base, plen) > base
  {
    assert Size(plen) == 2 * Pow2(31 - plen);
  }

  lemma BlocksAreKnown(lib: Library, blocks: seq<Block>, source: string)
    requires forall b <- blocks :: IsBlock(b)
    ensures forall k, s :: (k, s) in BlockPairs(blocks, source) ==>
      Span(lib, k).Some? && Span(lib, k).value.0 <= Span(lib, k).value.1 <= ALL32
  {
    forall b | b in blocks
      ensures Span(lib, KeyOf(b)) == Some(RangeOfBlock(b)) && RangeOfBlock(b).0 <= RangeOfBlock(b).1 <= ALL32
    {
      KeyRange(lib, b);
      if b.Net? {
        BlockFits(b.base, b.plen);
      }
    }
  }
}

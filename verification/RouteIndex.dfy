// The compiled routing index against the pattern scan.
// Models _domain_matches, routing_test, _route_cache_build and the probing half of _resolve_route
// of hunt/routing.py.

module RouteIndex {
  import opened PyText

  /** An enabled list with a route, in priority order. */
  datatype DomainList = DomainList(route: string, patterns: seq<string>)

  datatype Compiled = Compiled(route: string, exact: set<string>, suffixes: set<string>)

  function Normal(pattern: string): string {
    Strip(Lower(pattern))
  }

  // ---- The scan ----

  /** The branches of the scan, on a lowercase host and a normalised pattern. */
  predicate MatchesNormal(h: string, p: string) {
    if HasPrefix(p, "exact:") then h == p[6..]
    else if HasPrefix(p, "*.") then HasSuffix(h, p[1..]) || h == p[2..]
    else if HasPrefix(p, ".") then HasSuffix(h, p) || h == p[1..]
    else h == p || HasSuffix(h, "." + p)
  }

  predicate PatternMatches(host: string, pattern: string) {
    MatchesNormal(Lower(host), Normal(pattern))
  }

  predicate ListMatches(host: string, patterns: seq<string>) {
    exists i :: 0 <= i < |patterns| && PatternMatches(host, patterns[i])
  }

  /** The route of the first list with a matching pattern, or the default. */
  function Scan(host: string, lists: seq<DomainList>, default: string): string {
    if lists == [] then default
    else if ListMatches(host, lists[0].patterns) then lists[0].route
    else Scan(host, lists[1..], default)
  }

  // ---- The index ----

  function KeyOf(p: string): string {
    if HasPrefix(p, "exact:") then p[6..]
    else if HasPrefix(p, "*.") then p[2..]
    else if HasPrefix(p, ".") then p[1..]
    else p
  }

  function ExactKey(pattern: string): string {
    KeyOf(Normal(pattern))
  }

  predicate IsBlank(pattern: string) {
    Normal(pattern) == ""
  }

  predicate IsExact(pattern: string) {
    HasPrefix(Normal(pattern), "exact:")
  }

  ghost predicate HasExactKey(patterns: seq<string>, x: string) {
    exists i :: 0 <= i < |patterns| && !IsBlank(patterns[i]) && x == ExactKey(patterns[i])
  }

  ghost predicate HasDotKey(patterns: seq<string>, x: string) {
    exists i :: 0 <= i < |patterns| &&
      !IsBlank(patterns[i]) && !IsExact(patterns[i]) && x == "." + ExactKey(patterns[i])
  }

  /** What the index holds for the patterns of one list. */
  ghost predicate Compiles(c: Compiled, l: DomainList) {
    && c.route == l.route
    && (forall x :: x in c.exact <==> HasExactKey(l.patterns, x))
    && (forall x :: x in c.suffixes <==> HasDotKey(l.patterns, x))
  }

  function DotSuffixes(labels: seq<string>): seq<string> {
    if labels == [] then [] else ["." + Join(labels, ".")] + DotSuffixes(labels[1..])
  }

  /** A suffix of "." + host that begins with a dot. */
  predicate DotTail(h: string, t: string) {
    t != "" && t[0] == '.' && HasSuffix("." + h, t)
  }

  lemma FirstProbe(h: string)
    ensures var labels := SplitOn(h, '.');
            DotSuffixes(labels) == ["." + h] + DotSuffixes(labels[1..])
  {
    JoinSplit(h, '.');
  }

  /** Dot tails of a host in terms of the host without its first character. */
  lemma TailStep(h: string, t: string)
    requires h != ""
    ensures DotTail(h, t) <==>
      t == "." + h || (DotTail(h[1..], t) && (h[0] == '.' || t != "." + h[1..]))
  {
    var g, g' := "." + h, "." + h[1..];
    assert g == "." + [h[0]] + h[1..];
    if 1 <= |t| < |g'| {
      assert g[|g| - |t|..] == h[1..][|h| - 1 - |t|..] == g'[|g'| - |t|..];
    } else if |t| == |g'| {
      assert g[|g| - |t|..] == h;
      assert g'[|g'| - |t|..] == g';
    } else if |t| == |g| {
      assert g[|g| - |t|..] == g;
    }
  }

  /** The probes after the first are shorter. */
  lemma {:induction false} LaterProbesShorter(h: string, t: string)
    requires t in DotSuffixes(SplitOn(h, '.')[1..])
    ensures |t| <= |h|
  {
    var labels := SplitOn(h, '.');
    if h != "" {
      var rest := SplitOn(h[1..], '.');
      FirstProbe(h[1..]);
      assert labels[1..] == if h[0] == '.' then rest else rest[1..];
      if t in DotSuffixes(rest[1..]) {
        LaterProbesShorter(h[1..], t);
      }
    }
  }

  /** The probed strings are exactly the dot tails. */
  lemma {:induction false} ProbesAreTails(h: string, t: string)
    ensures t in DotSuffixes(SplitOn(h, '.')) <==> DotTail(h, t)
  {
    var labels := SplitOn(h, '.');
    FirstProbe(h);
    if h == "" {
      assert DotTail("", t) <==> t == ".";
    } else {
      var rest := SplitOn(h[1..], '.');
      assert labels[1..] == if h[0] == '.' then rest else rest[1..];
      ProbesAreTails(h[1..], t);
      FirstProbe(h[1..]);
      TailStep(h, t);
      if t in DotSuffixes(rest[1..]) {
        LaterProbesShorter(h[1..], t);
      }
    }
  }

  /** Probing one list. */
  ghost predicate Hit(h: string, c: Compiled) {
    h in c.exact || exists t :: t in DotSuffixes(SplitOn(h, '.')) && t in c.suffixes
  }

  predicate ProperHost(h: string) {
    h != "" && h[|h| - 1] != '.'
  }

  lemma TailOfKey(h: string, x: string)
    ensures DotTail(h, "." + x) <==> h == x || HasSuffix(h, "." + x)
  {
    var g, t := "." + h, "." + x;
    if |t| == |g| {
      assert g[|g| - |t|..] == g && g[1..] == h && t[1..] == x;
    } else if |t| < |g| {
      assert g[|g| - |t|..] == h[|h| - |t|..];
    }
  }

  lemma NormalAgrees(h: string, p: string)
    requires p != ""
    ensures MatchesNormal(h, p) <==>
      h == KeyOf(p) || (!HasPrefix(p, "exact:") && HasSuffix(h, "." + KeyOf(p)))
  {
    if HasPrefix(p, "exact:") {
    } else if HasPrefix(p, "*.") {
      assert p[1] == '.' && p[1..] == "." + p[2..];
    } else if HasPrefix(p, ".") {
      assert p[0] == '.' && p == "." + p[1..];
    }
  }

  lemma BlankMatches(h: string)
    ensures MatchesNormal(h, "") <==> !ProperHost(h)
  {
    assert "." + "" == ".";
    assert h != "" ==> h[|h| - 1..] == [h[|h| - 1]];
  }

  /** One pattern: its exact key and its dot key find the host exactly when the scan matches; a
      blank pattern matches the empty host and hosts with a trailing dot in the scan, and nothing
      in the index. */
  lemma PatternAgrees(host: string, pattern: string)
    ensures var h := Lower(host);
            PatternMatches(host, pattern) <==>
              if IsBlank(pattern) then !ProperHost(h)
              else h == ExactKey(pattern) || (!IsExact(pattern) && DotTail(h, "." + ExactKey(pattern)))
  {
    var h := Lower(host);
    BlankMatches(h);
    if !IsBlank(pattern) {
      NormalAgrees(h, Normal(pattern));
      TailOfKey(h, ExactKey(pattern));
    }
  }

  /** One list: the index hits exactly when the scan matches, except that the scan also matches an
      improper host when the list holds a blank pattern. */
  lemma ListAgrees(host: string, l: DomainList, c: Compiled)
    requires Compiles(c, l)
    ensures ListMatches(host, l.patterns) <==>
      Hit(Lower(host), c) || (!ProperHost(Lower(host)) && exists p <- l.patterns :: IsBlank(p))
  {
    var h := Lower(host);
    if ListMatches(host, l.patterns) {
      var i :| 0 <= i < |l.patterns| && PatternMatches(host, l.patterns[i]);
      var p := l.patterns[i];
      PatternAgrees(host, p);
      if !IsBlank(p) && h != ExactKey(p) {
        ProbesAreTails(h, "." + ExactKey(p));
        assert "." + ExactKey(p) in c.suffixes;
      }
    }
    if h in c.exact {
      var i :| 0 <= i < |l.patterns| && !IsBlank(l.patterns[i]) && h == ExactKey(l.patterns[i]);
      PatternAgrees(host, l.patterns[i]);
    } else if Hit(h, c) {
      var t :| t in DotSuffixes(SplitOn(h, '.')) && t in c.suffixes;
      ProbesAreTails(h, t);
      var i :| 0 <= i < |l.patterns| && !IsBlank(l.patterns[i]) && !IsExact(l.patterns[i])
        && t == "." + ExactKey(l.patterns[i]);
      PatternAgrees(host, l.patterns[i]);
    }
    if !ProperHost(h) && exists p <- l.patterns :: IsBlank(p) {
      var p :| p in l.patterns && IsBlank(p);
      var i :| 0 <= i < |l.patterns| && l.patterns[i] == p;
      PatternAgrees(host, l.patterns[i]);
    }
  }

  predicate NoBlanks(lists: seq<DomainList>) {
    forall l <- lists :: forall p <- l.patterns :: !IsBlank(p)
  }

  ghost predicate CompilesAll(cs: seq<Compiled>, lists: seq<DomainList>) {
    |cs| == |lists| && forall i :: 0 <= i < |cs| ==> Compiles(cs[i], lists[i])
  }

  /** The route the index gives: the first compiled list that is hit, or the default. */
  ghost function Lookup(h: string, cs: seq<Compiled>, default: string): string {
    if cs == [] then default
    else if Hit(h, cs[0]) then cs[0].route
    else Lookup(h, cs[1..], default)
  }

  /** Compilation preserves meaning: on every host the index and the scan give the same route,
      provided no stored pattern is blank or the host is neither empty nor ends in a dot. */
  lemma {:induction false} LookupIsScan(host: string, cs: seq<Compiled>, lists: seq<DomainList>, default: string)
    requires CompilesAll(cs, lists)
    requires NoBlanks(lists) || ProperHost(Lower(host))
    ensures Lookup(Lower(host), cs, default) == Scan(host, lists, default)
  {
    if cs != [] {
      ListAgrees(host, lists[0], cs[0]);
      LookupIsScan(host, cs[1..], lists[1..], default);
    }
  }

  /** With a blank pattern the two forms differ on a host with a trailing dot. */
  lemma BlankPatternDiffers(route: string, default: string, c: Compiled)
    requires route != default && Compiles(c, DomainList(route, [" "]))
    ensures Scan("a.", [DomainList(route, [" "])], default) != Lookup(Lower("a."), [c], default)
  {
    var l := DomainList(route, [" "]);
    assert Lower(" ") == " ";
    assert IsBlank(" ") by { assert StripLeft(" ") == ""; }
    assert Lower("a.") == "a.";
    ListAgrees("a.", l, c);
    assert !Hit("a.", c) by {
      assert c.exact == {} && c.suffixes == {};
    }
    assert l.patterns[0] in l.patterns;
    assert Lookup("a.", [c], default) == Lookup("a.", [c][1..], default) == default;
    assert Scan("a.", [l], default) == route;
  }

  // ---- The code of the cache build and of the probe ----

  method CompileList(l: DomainList) returns (c: Compiled)
    ensures Compiles(c, l)
  {
    var exact: set<string>, suffixes: set<string> := {}, {};
    for i := 0 to |l.patterns|
      invariant Compiles(Compiled(l.route, exact, suffixes), DomainList(l.route, l.patterns[..i]))
    {
      var p := Normal(l.patterns[i]);
      assert l.patterns[..i + 1] == l.patterns[..i] + [l.patterns[i]];
      CompilesOneMore(Compiled(l.route, exact, suffixes), DomainList(l.route, l.patterns[..i]), l.patterns[i]);
      if p == "" {
        continue;
      }
      if HasPrefix(p, "exact:") {
        exact := exact + {p[6..]};
      } else if HasPrefix(p, "*.") {
        exact := exact + {p[2..]};
        suffixes := suffixes + {"." + p[2..]};
      } else if HasPrefix(p, ".") {
        exact := exact + {p[1..]};
        suffixes := suffixes + {"." + p[1..]};
      } else {
        exact := exact + {p};
        suffixes := suffixes + {"." + p};
      }
    }
    assert l.patterns[..|l.patterns|] == l.patterns;
    c := Compiled(l.route, exact, suffixes);
  }

  lemma KeysOfOneMore(ps: seq<string>, p: string, x: string)
    ensures HasExactKey(ps + [p], x) <==> HasExactKey(ps, x) || (!IsBlank(p) && x == ExactKey(p))
    ensures HasDotKey(ps + [p], x) <==>
      HasDotKey(ps, x) || (!IsBlank(p) && !IsExact(p) && x == "." + ExactKey(p))
  {
    var qs := ps + [p];
    assert qs[|ps|] == p;
    assert forall i :: 0 <= i < |ps| ==> qs[i] == ps[i];
  }

  lemma CompilesOneMore(c: Compiled, l: DomainList, p: string)
    requires Compiles(c, l)
    ensures
      var x := ExactKey(p);
      var c' := if IsBlank(p) then c
        else Compiled(c.route, c.exact + {x}, if IsExact(p) then c.suffixes else c.suffixes + {"." + x});
      Compiles(c', DomainList(l.route, l.patterns + [p]))
  {
    forall x
      ensures HasExactKey(l.patterns + [p], x) <==> HasExactKey(l.patterns, x) || (!IsBlank(p) && x == ExactKey(p))
      ensures HasDotKey(l.patterns + [p], x) <==>
        HasDotKey(l.patterns, x) || (!IsBlank(p) && !IsExact(p) && x == "." + ExactKey(p))
    {
      KeysOfOneMore(l.patterns, p, x);
    }
  }

  method CompileLists(lists: seq<DomainList>) returns (cs: seq<Compiled>)
    ensures CompilesAll(cs, lists)
  {
    cs := [];
    for i := 0 to |lists|
      invariant CompilesAll(cs, lists[..i])
    {
      var c := CompileList(lists[i]);
      cs := cs + [c];
    }
    assert lists[..|lists|] == lists;
  }

  /** The inner probing loop. */
  method ProbeSuffixes(probes: seq<string>, suffixes: set<string>) returns (found: bool)
    ensures found <==> exists t <- probes :: t in suffixes
  {
    for j := 0 to |probes|
      invariant forall k :: 0 <= k < j ==> probes[k] !in suffixes
    {
      if probes[j] in suffixes {
        return true;
      }
    }
    return false;
  }

  /** The probing loops of _resolve_route; the result is the route of the pattern scan. */
  method Probe(host: string, cs: seq<Compiled>, default: string, ghost lists: seq<DomainList>)
    returns (route: string)
    requires CompilesAll(cs, lists)
    ensures route == Lookup(Lower(host), cs, default)
    ensures NoBlanks(lists) || ProperHost(Lower(host)) ==> route == Scan(host, lists, default)
  {
    if NoBlanks(lists) || ProperHost(Lower(host)) {
      LookupIsScan(host, cs, lists, default);
    }
    var h := Lower(host);
    var probes := DotSuffixes(SplitOn(h, '.'));
    for i := 0 to |cs|
      invariant Lookup(h, cs, default) == Lookup(h, cs[i..], default)
    {
      assert cs[i..][1..] == cs[i + 1..];
      if h in cs[i].exact {
        return cs[i].route;
      }
      var found := ProbeSuffixes(probes, cs[i].suffixes);
      if found {
        return cs[i].route;
      }
    }
    return default;
  }
}

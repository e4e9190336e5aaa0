// Who carries a request: the route is resolved to a direct connection, a custom proxy, one rated proxy
// or the pool, with bounded retries and an optional reroute to the pool. Models hunt/proxy_routing.py.
// Each connection attempt takes the next of an arbitrary sequence of answers.

module CarrierChoice {
  import opened Wrappers
  import opened PyText
  import opened Chain

  const CONNECT_RETRIES: nat := 3
  const POOL_TRIES: nat := 8

  /** One attempt: no connection, broken in the handshake, target refused, or through. */
  datatype Outcome = Down | Broken | Refused | Accepted

  datatype Proxy = Proxy(
    address: string, socks: bool, supportsConnect: bool, inBlacklist: bool, poolEligible: bool,
    countryAllowed: bool, live: bool, score: real)

  datatype Custom = Custom(enabled: bool, socks5: bool)

  datatype Config = Config(
    customs: map<string, Custom>, defaultRoute: string, fallbackPool: bool, directMode: bool,
    activeAddr: string, channel: bool)

  datatype Served = Nobody | TooDeep | By(carrier: Carrier, raw: bool)

  // ---- Single attempts and retries ----

  /** The answers that attempts will get, in order; nobody answers any later. */
  type Answers = seq<Outcome>

  function AnswerAt(oracle: Answers, i: nat): Outcome {
    if i < |oracle| then oracle[i] else Down
  }

  /** Without a handshake an open connection is already through. */
  function Seen(o: Outcome, negotiates: bool): Outcome {
    if !negotiates && !o.Down? then Accepted else o
  }

  function SeenAt(oracle: Answers, tick: nat, j: nat, negotiates: bool): Outcome {
    Seen(AnswerAt(oracle, tick + j), negotiates)
  }

  /** Attempt k wins: it is within the retries and every earlier one failed in a retryable way. */
  predicate Wins(oracle: Answers, tick: nat, negotiates: bool, k: nat) {
    && k < CONNECT_RETRIES
    && SeenAt(oracle, tick, k, negotiates).Accepted?
    && forall j: nat :: j < k ==> Retryable(SeenAt(oracle, tick, j, negotiates))
  }

  predicate Retryable(o: Outcome) { o.Down? || o.Broken? }

  predicate Negotiates(p: Proxy, needConnect: bool) { p.socks || needConnect }

  predicate Handshakes(c: Custom, needConnect: bool) { c.socks5 || needConnect }

  /** Pool member k wins: it is among the first eight and every one before it failed. */
  predicate PoolWins(oracle: Answers, tick: nat, pool: seq<Proxy>, needConnect: bool, k: nat) {
    && k < |pool| && k < POOL_TRIES
    && SeenAt(oracle, tick, k, Negotiates(pool[k], needConnect)).Accepted?
    && forall j :: 0 <= j < k ==> !SeenAt(oracle, tick, j, Negotiates(pool[j], needConnect)).Accepted?
  }

  // ---- The pool ----

  predicate InPool(p: Proxy, needConnect: bool) {
    p.poolEligible && p.countryAllowed && (!needConnect || p.supportsConnect || p.socks)
  }

  function Members(ps: seq<Proxy>, needConnect: bool, live: bool): seq<Proxy> {
    if ps == [] then []
    else
      (if InPool(ps[0], needConnect) && ps[0].live == live then [ps[0]] else [])
      + Members(ps[1..], needConnect, live)
  }

  function Insert(p: Proxy, sorted: seq<Proxy>): seq<Proxy> {
    if sorted == [] || p.score >= sorted[0].score then [p] + sorted else [sorted[0]] + Insert(p, sorted[1..])
  }

  /** Descending by score, equal scores in their old order, as a stable sort leaves them. */
  function ByScore(ps: seq<Proxy>): seq<Proxy> {
    if ps == [] then [] else Insert(ps[0], ByScore(ps[1..]))
  }

  function PoolOf(ps: seq<Proxy>, needConnect: bool): seq<Proxy> {
    ByScore(Members(ps, needConnect, true)) + ByScore(Members(ps, needConnect, false))
  }

  predicate Descending(ps: seq<Proxy>) {
    forall i, j :: 0 <= i < j < |ps| ==> ps[i].score >= ps[j].score
  }

  function WithScore(ps: seq<Proxy>, score: real): seq<Proxy> {
    if ps == [] then []
    else (if ps[0].score == score then [ps[0]] else []) + WithScore(ps[1..], score)
  }

  lemma {:induction false} InsertKeeps(p: Proxy, sorted: seq<Proxy>)
    ensures multiset(Insert(p, sorted)) == multiset([p] + sorted)
  {
    if sorted != [] && p.score < sorted[0].score {
      InsertKeeps(p, sorted[1..]);
      assert sorted == [sorted[0]] + sorted[1..];
    }
  }

  lemma InsertMembers(p: Proxy, sorted: seq<Proxy>, q: Proxy)
    requires q in Insert(p, sorted)
    ensures q == p || q in sorted
  {
    InsertKeeps(p, sorted);
    assert q in multiset(Insert(p, sorted));
    assert q in [p] + sorted;
  }

  lemma {:induction false} InsertSorts(p: Proxy, sorted: seq<Proxy>)
    requires Descending(sorted)
    ensures Descending(Insert(p, sorted))
  {
    if sorted != [] && p.score < sorted[0].score {
      var rest := Insert(p, sorted[1..]);
      InsertSorts(p, sorted[1..]);
      forall q | q in rest
        ensures sorted[0].score >= q.score
      {
        InsertMembers(p, sorted[1..], q);
      }
    }
  }

  lemma {:induction false} InsertStable(p: Proxy, sorted: seq<Proxy>, score: real)
    ensures WithScore(Insert(p, sorted), score) == WithScore([p] + sorted, score)
  {
    assert ([p] + sorted)[1..] == sorted;
    if sorted != [] && p.score < sorted[0].score {
      InsertStable(p, sorted[1..], score);
      assert ([p] + sorted[1..])[1..] == sorted[1..];
      assert ([sorted[0]] + Insert(p, sorted[1..]))[1..] == Insert(p, sorted[1..]);
    }
  }

  lemma {:induction false} ByScoreSorts(ps: seq<Proxy>)
    ensures Descending(ByScore(ps)) && multiset(ByScore(ps)) == multiset(ps)
  {
    if ps != [] {
      ByScoreSorts(ps[1..]);
      InsertSorts(ps[0], ByScore(ps[1..]));
      InsertKeeps(ps[0], ByScore(ps[1..]));
      assert ps == [ps[0]] + ps[1..];
    }
  }

  lemma {:induction false} ByScoreStable(ps: seq<Proxy>, score: real)
    ensures WithScore(ByScore(ps), score) == WithScore(ps, score)
  {
    if ps != [] {
      ByScoreStable(ps[1..], score);
      InsertStable(ps[0], ByScore(ps[1..]), score);
      assert ([ps[0]] + ByScore(ps[1..]))[1..] == ByScore(ps[1..]);
    }
  }

  lemma {:induction false} MembersAre(ps: seq<Proxy>, needConnect: bool, live: bool, p: Proxy)
    ensures multiset(Members(ps, needConnect, live))[p] ==
      if InPool(p, needConnect) && p.live == live then multiset(ps)[p] else 0
  {
    if ps != [] {
      MembersAre(ps[1..], needConnect, live, p);
      assert ps == [ps[0]] + ps[1..];
    }
  }

  lemma PoolHolds(ps: seq<Proxy>, needConnect: bool, p: Proxy)
    ensures multiset(PoolOf(ps, needConnect))[p] == if InPool(p, needConnect) then multiset(ps)[p] else 0
  {
    ByScoreSorts(Members(ps, needConnect, true));
    ByScoreSorts(Members(ps, needConnect, false));
    MembersAre(ps, needConnect, true, p);
    MembersAre(ps, needConnect, false, p);
  }

  lemma PartsAre(ps: seq<Proxy>, needConnect: bool, live: bool)
    ensures Descending(ByScore(Members(ps, needConnect, live)))
    ensures forall p <- ByScore(Members(ps, needConnect, live)) :: p.live == live
  {
    var part := Members(ps, needConnect, live);
    ByScoreSorts(part);
    forall p | p in ByScore(part)
      ensures p.live == live
    {
      assert p in multiset(ByScore(part));
      MembersAre(ps, needConnect, live, p);
    }
  }

  lemma PoolOrdered(ps: seq<Proxy>, needConnect: bool)
    ensures var pool := PoolOf(ps, needConnect);
      forall i, j :: 0 <= i < j < |pool| ==>
        (pool[j].live ==> pool[i].live) && (pool[i].live == pool[j].live ==> pool[i].score >= pool[j].score)
  {
    PartsAre(ps, needConnect, true);
    PartsAre(ps, needConnect, false);
    var live, grace := ByScore(Members(ps, needConnect, true)), ByScore(Members(ps, needConnect, false));
    var pool := live + grace;
    assert forall i :: 0 <= i < |live| ==> pool[i] == live[i] && pool[i] in live;
    assert forall i :: |live| <= i < |pool| ==> pool[i] == grace[i - |live|] && pool[i] in grace;
  }

  /** The pool holds exactly the eligible proxies of allowed countries, for CONNECT only those that can,
      all live ones before any in grace, each part in descending score. */
  lemma PoolOrder(ps: seq<Proxy>, needConnect: bool)
    ensures var pool := PoolOf(ps, needConnect);
            && (forall p :: multiset(pool)[p] ==
                  if p.poolEligible && p.countryAllowed && (needConnect ==> p.supportsConnect || p.socks)
                  then multiset(ps)[p] else 0)
            && (forall i, j :: 0 <= i < j < |pool| ==>
                  (pool[j].live ==> pool[i].live)
                  && (pool[i].live == pool[j].live ==> pool[i].score >= pool[j].score))
  {
    PoolOrdered(ps, needConnect);
    forall p
      ensures multiset(PoolOf(ps, needConnect))[p] == if InPool(p, needConnect) then multiset(ps)[p] else 0
    {
      PoolHolds(ps, needConnect, p);
    }
  }

  function Lookup(ps: seq<Proxy>, addr: string): Option<Proxy> {
    if ps == [] then None else if ps[0].address == addr then Some(ps[0]) else Lookup(ps[1..], addr)
  }

  predicate HasAddress(ps: seq<Proxy>, addr: string) {
    exists i :: 0 <= i < |ps| && ps[i].address == addr
  }

  /** A rated carrier is one of the known proxies. */
  predicate Known(ps: seq<Proxy>, c: Carrier) {
    c.ByRating? || c.ByPool? ==> HasAddress(ps, c.addr)
  }

  lemma {:induction false} LookupKnown(ps: seq<Proxy>, addr: string)
    requires Lookup(ps, addr).Some?
    ensures HasAddress(ps, addr)
  {
    if ps[0].address != addr {
      LookupKnown(ps[1..], addr);
      var i :| 0 <= i < |ps[1..]| && ps[1..][i].address == addr;
      assert ps[i + 1].address == addr;
    }
  }

  lemma PoolKnown(ps: seq<Proxy>, needConnect: bool, k: nat)
    requires k < |PoolOf(ps, needConnect)|
    ensures HasAddress(ps, PoolOf(ps, needConnect)[k].address)
  {
    var p := PoolOf(ps, needConnect)[k];
    PoolHolds(ps, needConnect, p);
    assert p in multiset(PoolOf(ps, needConnect));
    assert p in ps;
  }

  /** The proxy is known, not excluded, and wins within its retries. */
  ghost predicate CanServe(oracle: Answers, tick: nat, ps: seq<Proxy>, addr: string, needConnect: bool) {
    && Lookup(ps, addr).Some? && !Lookup(ps, addr).value.inBlacklist
    && exists k: nat :: Wins(oracle, tick, Negotiates(Lookup(ps, addr).value, needConnect), k)
  }

  // ---- What a route allows ----

  datatype Way = Directly | OverCustom(id: string) | OverProxy(addr: string) | FromPool

  /** The way that a route names. */
  function WayOf(cfg: Config, route: string): Way {
    if route == "direct" then Directly
    else if HasPrefix(route, "custom:") then OverCustom(route[7..])
    else if HasPrefix(route, "proxy:") then OverProxy(route[6..])
    else if route == "pool" || route == "" then FromPool
    else if route != "pool_selected" && cfg.directMode then Directly
    else if cfg.activeAddr != "" then OverProxy(cfg.activeAddr)
    else FromPool
  }

  predicate Enabled(cfg: Config, id: string) {
    id in cfg.customs && cfg.customs[id].enabled
  }

  predicate DisabledCustom(cfg: Config, route: string) {
    WayOf(cfg, route).OverCustom? && !Enabled(cfg, WayOf(cfg, route).id)
  }

  predicate SelectedOrPool(cfg: Config, addr: string, c: Carrier) {
    (c.ByRating? && c.addr == addr) || (cfg.fallbackPool && c.ByPool?)
  }

  predicate Allows(cfg: Config, route: string, c: Carrier) {
    if route == "direct" then c == ByDirect(cfg.channel)
    else if HasPrefix(route, "custom:") then c.ByCustom? && c.id == route[7..]
    else if HasPrefix(route, "proxy:") then SelectedOrPool(cfg, route[6..], c)
    else if route == "pool_selected" then
      if cfg.activeAddr != "" then SelectedOrPool(cfg, cfg.activeAddr, c) else c.ByPool?
    else if route == "pool" || route == "" then c.ByPool?
    else if cfg.directMode then c == ByDirect(cfg.channel)
    else if cfg.activeAddr != "" then SelectedOrPool(cfg, cfg.activeAddr, c)
    else c.ByPool?
  }

  /** A disabled custom proxy hands over to the default route, with a note. */
  function Resolved(cfg: Config, route: string): string {
    if DisabledCustom(cfg, route) then cfg.defaultRoute else route
  }

  function Handover(cfg: Config, route: string): seq<Note> {
    if DisabledCustom(cfg, route) then [Disabled(WayOf(cfg, route).id)] else []
  }

  /** The proxy whose failure may send the request to the pool. */
  function Selected(cfg: Config, route: string): Option<string> {
    match WayOf(cfg, route)
    case OverProxy(addr) => Some(addr)
    case _ => None
  }

  /** The notes made on a way. */
  function WayNotes(way: Way, c: Carrier): seq<Note> {
    if c.ByPool? && way.OverProxy? then [Rerouted(way.addr)] else []
  }

  /** The notes of a finished connection. */
  function Trail(cfg: Config, route: string, c: Carrier): seq<Note> {
    Handover(cfg, route) + WayNotes(WayOf(cfg, Resolved(cfg, route)), c)
  }

  // ---- Who carries a request ----

  /** The answers to come, the settings, and what a counted traffic failure does to a rating. */
  datatype World = World(oracle: Answers, cfg: Config, demote: Proxy -> Proxy)

  /** The attempt that wins, from attempt k on. */
  function Winner(oracle: Answers, tick: nat, negotiates: bool, k: nat): Option<nat>
    decreases CONNECT_RETRIES - k, tick
  {
    if k >= CONNECT_RETRIES then None
    else if SeenAt(oracle, tick, k, negotiates).Accepted? then Some(k)
    else if Retryable(SeenAt(oracle, tick, k, negotiates)) then Winner(oracle, tick, negotiates, k + 1)
    else None
  }

  /** How many attempts are made, from attempt k on. */
  function Made(oracle: Answers, tick: nat, negotiates: bool, k: nat): nat
    decreases CONNECT_RETRIES - k, tick
  {
    if k >= CONNECT_RETRIES then 0
    else if Retryable(SeenAt(oracle, tick, k, negotiates)) then 1 + Made(oracle, tick, negotiates, k + 1)
    else 1
  }

  function PoolWinner(oracle: Answers, tick: nat, pool: seq<Proxy>, needConnect: bool, k: nat): Option<nat>
    decreases POOL_TRIES - k, tick
  {
    if k >= |pool| || k >= POOL_TRIES then None
    else if SeenAt(oracle, tick, k, Negotiates(pool[k], needConnect)).Accepted? then Some(k)
    else PoolWinner(oracle, tick, pool, needConnect, k + 1)
  }

  function Demoted(w: World, p: Proxy, addr: string): Proxy {
    if p.address == addr then w.demote(p).(address := p.address) else p
  }

  function AfterFail(w: World, ps: seq<Proxy>, addr: string): seq<Proxy> {
    seq(|ps|, i requires 0 <= i < |ps| => Demoted(w, ps[i], addr))
  }

  function DirectServes(w: World, tick: nat): Served {
    if Seen(AnswerAt(w.oracle, tick), false).Accepted? then By(ByDirect(w.cfg.channel), false) else Nobody
  }

  function CustomServes(w: World, tick: nat, id: string, custom: Custom, needConnect: bool): Served {
    match Winner(w.oracle, tick, Handshakes(custom, needConnect), 0)
    case None => Nobody
    case Some(k) =>
      var raw := !custom.socks5 && !needConnect;
      By(ByCustom(id, if raw then 0 else k), raw)
  }

  function RatingServes(w: World, tick: nat, p: Proxy, needConnect: bool): Served {
    if p.inBlacklist then Nobody
    else match Winner(w.oracle, tick, Negotiates(p, needConnect), 0)
      case None => Nobody
      case Some(k) => By(ByRating(p.address, k), !needConnect && !p.socks)
  }

  function AddrServes(w: World, tick: nat, ps: seq<Proxy>, addr: string, needConnect: bool): Served {
    match Lookup(ps, addr)
    case None => Nobody
    case Some(p) => RatingServes(w, tick, p, needConnect)
  }

  /** How many answers asking that proxy takes. */
  function AddrTakes(w: World, tick: nat, ps: seq<Proxy>, addr: string, needConnect: bool): nat {
    match Lookup(ps, addr)
    case None => 0
    case Some(p) => if p.inBlacklist then 0 else Made(w.oracle, tick, Negotiates(p, needConnect), 0)
  }

  function PoolServes(w: World, tick: nat, ps: seq<Proxy>, needConnect: bool): Served {
    var pool := PoolOf(ps, needConnect);
    match PoolWinner(w.oracle, tick, pool, needConnect, 0)
    case None => Nobody
    case Some(k) => if k < |pool| then By(ByPool(pool[k].address), !needConnect && !pool[k].socks) else Nobody
  }

  /** The pool as it stands after the failure of `addr`, with the answers that are left. */
  function FallbackServes(w: World, tick: nat, ps: seq<Proxy>, addr: string, needConnect: bool): Served {
    PoolServes(w, tick + AddrTakes(w, tick, ps, addr, needConnect), AfterFail(w, ps, addr), needConnect)
  }

  /** The proxy itself; if it fails and the fallback is on, the pool. */
  function SelectedServes(w: World, tick: nat, ps: seq<Proxy>, addr: string, needConnect: bool): Served {
    var served := AddrServes(w, tick, ps, addr, needConnect);
    if served.By? then served
    else if !w.cfg.fallbackPool then Nobody
    else FallbackServes(w, tick, ps, addr, needConnect)
  }

  /** Who carries a request on a way; a custom proxy must be there and enabled. */
  function WayServes(w: World, tick: nat, ps: seq<Proxy>, way: Way, needConnect: bool): Served {
    match way
    case Directly => DirectServes(w, tick)
    case OverCustom(id) =>
      if Enabled(w.cfg, id)
      then CustomServes(w, tick, id, w.cfg.customs[id], needConnect) else TooDeep
    case OverProxy(addr) => SelectedServes(w, tick, ps, addr, needConnect)
    case FromPool => PoolServes(w, tick, ps, needConnect)
  }

  /** A disabled custom proxy hands over once; if the default route is one too, no answer comes. */
  function CarriedBy(w: World, tick: nat, ps: seq<Proxy>, route: string, needConnect: bool): Served {
    WayServes(w, tick, ps, WayOf(w.cfg, Resolved(w.cfg, route)), needConnect)
  }

  /** The failure of a selected proxy that a request records. */
  function Recorded(w: World, tick: nat, ps: seq<Proxy>, way: Way, needConnect: bool): seq<string> {
    if way.OverProxy? && !AddrServes(w, tick, ps, way.addr, needConnect).By? then [way.addr] else []
  }

  // ---- What that means ----

  lemma {:induction false} WinnerFrom(oracle: Answers, tick: nat, negotiates: bool, k: nat, i: nat)
    requires forall j: nat :: j < k ==> Retryable(SeenAt(oracle, tick, j, negotiates))
    ensures Winner(oracle, tick, negotiates, k) == Some(i) <==> Wins(oracle, tick, negotiates, i)
    decreases CONNECT_RETRIES - k
  {
    if k < CONNECT_RETRIES && Retryable(SeenAt(oracle, tick, k, negotiates)) {
      WinnerFrom(oracle, tick, negotiates, k + 1, i);
    }
  }

  lemma WinnerWins(oracle: Answers, tick: nat, negotiates: bool)
    ensures forall k: nat :: Winner(oracle, tick, negotiates, 0) == Some(k) <==> Wins(oracle, tick, negotiates, k)
  {
    forall k: nat
      ensures Winner(oracle, tick, negotiates, 0) == Some(k) <==> Wins(oracle, tick, negotiates, k)
    {
      WinnerFrom(oracle, tick, negotiates, 0, k);
    }
  }

  lemma {:induction false} PoolWinnerFrom(
    oracle: Answers, tick: nat, pool: seq<Proxy>, needConnect: bool, k: nat, i: nat)
    requires k <= |pool|
    requires forall j :: 0 <= j < k ==> !SeenAt(oracle, tick, j, Negotiates(pool[j], needConnect)).Accepted?
    ensures PoolWinner(oracle, tick, pool, needConnect, k) == Some(i) <==>
      PoolWins(oracle, tick, pool, needConnect, i)
    decreases POOL_TRIES - k
  {
    if k < |pool| && k < POOL_TRIES && !SeenAt(oracle, tick, k, Negotiates(pool[k], needConnect)).Accepted? {
      PoolWinnerFrom(oracle, tick, pool, needConnect, k + 1, i);
    }
  }

  lemma PoolWinnerWins(oracle: Answers, tick: nat, pool: seq<Proxy>, needConnect: bool)
    ensures forall k: nat ::
      PoolWinner(oracle, tick, pool, needConnect, 0) == Some(k) <==> PoolWins(oracle, tick, pool, needConnect, k)
  {
    forall k: nat
      ensures PoolWinner(oracle, tick, pool, needConnect, 0) == Some(k) <==>
        PoolWins(oracle, tick, pool, needConnect, k)
    {
      PoolWinnerFrom(oracle, tick, pool, needConnect, 0, k);
    }
  }

  ghost predicate PoolCanServe(oracle: Answers, tick: nat, ps: seq<Proxy>, needConnect: bool) {
    exists k: nat :: PoolWins(oracle, tick, PoolOf(ps, needConnect), needConnect, k)
  }

  ghost predicate FallbackCanServe(w: World, tick: nat, ps: seq<Proxy>, addr: string, needConnect: bool) {
    PoolCanServe(w.oracle, tick + AddrTakes(w, tick, ps, addr, needConnect), AfterFail(w, ps, addr), needConnect)
  }

  /** An attempt wins that this way makes. */
  ghost predicate Carriable(w: World, tick: nat, ps: seq<Proxy>, way: Way, needConnect: bool) {
    match way
    case Directly => !AnswerAt(w.oracle, tick).Down?
    case OverCustom(id) =>
      && Enabled(w.cfg, id)
      && exists k: nat :: Wins(w.oracle, tick, Handshakes(w.cfg.customs[id], needConnect), k)
    case OverProxy(addr) =>
      || CanServe(w.oracle, tick, ps, addr, needConnect)
      || (w.cfg.fallbackPool && FallbackCanServe(w, tick, ps, addr, needConnect))
    case FromPool => PoolCanServe(w.oracle, tick, ps, needConnect)
  }

  predicate WayAllows(cfg: Config, way: Way, c: Carrier) {
    match way
    case Directly => c == ByDirect(cfg.channel)
    case OverCustom(id) => c.ByCustom? && c.id == id
    case OverProxy(addr) => SelectedOrPool(cfg, addr, c)
    case FromPool => c.ByPool?
  }

  lemma WayIsAllowed(cfg: Config, route: string, c: Carrier)
    ensures Allows(cfg, route, c) <==> WayAllows(cfg, WayOf(cfg, route), c)
  {
  }

  lemma CustomServesExactly(w: World, tick: nat, id: string, custom: Custom, needConnect: bool)
    ensures var served := CustomServes(w, tick, id, custom, needConnect);
      && !served.TooDeep?
      && (served.By? <==> exists k: nat :: Wins(w.oracle, tick, Handshakes(custom, needConnect), k))
      && (served.By? ==> served.carrier.ByCustom? && served.carrier.id == id)
  {
    WinnerWins(w.oracle, tick, Handshakes(custom, needConnect));
  }

  lemma AddrServesExactly(w: World, tick: nat, ps: seq<Proxy>, addr: string, needConnect: bool)
    ensures var served := AddrServes(w, tick, ps, addr, needConnect);
      && !served.TooDeep?
      && (served.By? <==> CanServe(w.oracle, tick, ps, addr, needConnect))
      && (served.By? ==>
            && served.carrier.ByRating? && served.carrier.addr == addr && HasAddress(ps, addr)
            && Wins(w.oracle, tick, Negotiates(Lookup(ps, addr).value, needConnect), served.carrier.retry))
  {
    if Lookup(ps, addr).Some? {
      LookupKnown(ps, addr);
      LookupIsAt(ps, addr);
      WinnerWins(w.oracle, tick, Negotiates(Lookup(ps, addr).value, needConnect));
    }
  }

  lemma {:induction false} LookupIsAt(ps: seq<Proxy>, addr: string)
    requires Lookup(ps, addr).Some?
    ensures Lookup(ps, addr).value.address == addr
  {
    if ps[0].address != addr {
      LookupIsAt(ps[1..], addr);
    }
  }

  lemma PoolServesExactly(w: World, tick: nat, ps: seq<Proxy>, needConnect: bool)
    ensures var served := PoolServes(w, tick, ps, needConnect);
      && !served.TooDeep?
      && (served.By? <==> PoolCanServe(w.oracle, tick, ps, needConnect))
      && (served.By? ==> served.carrier.ByPool? && Known(ps, served.carrier))
  {
    var pool := PoolOf(ps, needConnect);
    PoolWinnerWins(w.oracle, tick, pool, needConnect);
    var winner := PoolWinner(w.oracle, tick, pool, needConnect, 0);
    if winner.Some? {
      assert PoolWins(w.oracle, tick, pool, needConnect, winner.value);
      PoolKnown(ps, needConnect, winner.value);
    }
  }

  // ---- What a recorded failure does ----

  /** Every proxy with another address is as before, and every one with this address is demoted. */
  ghost predicate FailRecorded(w: World, ps: seq<Proxy>, ps': seq<Proxy>, addr: string) {
    && |ps'| == |ps|
    && (forall i :: 0 <= i < |ps| && ps[i].address != addr ==> ps'[i] == ps[i])
    && (forall i :: 0 <= i < |ps| && ps[i].address == addr ==> ps'[i] == w.demote(ps[i]).(address := addr))
  }

  function Others(ps: seq<Proxy>, addr: string): seq<Proxy> {
    if ps == [] then [] else (if ps[0].address != addr then [ps[0]] else []) + Others(ps[1..], addr)
  }

  lemma {:induction false} OthersConcat(a: seq<Proxy>, b: seq<Proxy>, addr: string)
    ensures Others(a + b, addr) == Others(a, addr) + Others(b, addr)
  {
    if a == [] {
      assert a + b == b;
    } else {
      assert (a + b)[1..] == a[1..] + b;
      OthersConcat(a[1..], b, addr);
    }
  }

  lemma {:induction false} OthersMembers(ps: seq<Proxy>, needConnect: bool, live: bool, addr: string)
    ensures Others(Members(ps, needConnect, live), addr) == Members(Others(ps, addr), needConnect, live)
  {
    if ps != [] {
      OthersMembers(ps[1..], needConnect, live, addr);
      var p, rest := ps[0], Others(ps[1..], addr);
      var first := if InPool(p, needConnect) && p.live == live then [p] else [];
      OthersConcat(first, Members(ps[1..], needConnect, live), addr);
      if p.address != addr {
        assert ([p] + rest)[1..] == rest;
      } else {
        assert [] + rest == rest;
      }
    }
  }

  lemma OthersCons(p: Proxy, rest: seq<Proxy>, addr: string)
    ensures Others([p] + rest, addr) == if p.address == addr then Others(rest, addr) else [p] + Others(rest, addr)
  {
    assert ([p] + rest)[1..] == rest;
    assert [] + Others(rest, addr) == Others(rest, addr);
  }

  lemma {:induction false} OthersInsert(p: Proxy, sorted: seq<Proxy>, addr: string)
    requires Descending(sorted)
    ensures Others(Insert(p, sorted), addr) ==
      if p.address == addr then Others(sorted, addr) else Insert(p, Others(sorted, addr))
  {
    if sorted == [] || p.score >= sorted[0].score {
      OthersCons(p, sorted, addr);
      OthersAreThere(sorted, addr);
      assert Others(sorted, addr) != [] ==> Others(sorted, addr)[0] in sorted;
    } else {
      var q, rest := sorted[0], sorted[1..];
      OthersInsert(p, rest, addr);
      OthersCons(q, Insert(p, rest), addr);
      OthersCons(q, rest, addr);
      assert [q] + rest == sorted;
      if q.address != addr {
        assert ([q] + Others(rest, addr))[1..] == Others(rest, addr);
      }
    }
  }

  lemma {:induction false} OthersAreThere(ps: seq<Proxy>, addr: string)
    ensures forall p <- Others(ps, addr) :: p in ps
  {
    if ps != [] {
      OthersAreThere(ps[1..], addr);
    }
  }

  lemma {:induction false} OthersSorted(ps: seq<Proxy>, addr: string)
    ensures Others(ByScore(ps), addr) == ByScore(Others(ps, addr))
  {
    if ps != [] {
      OthersSorted(ps[1..], addr);
      ByScoreSorts(ps[1..]);
      OthersInsert(ps[0], ByScore(ps[1..]), addr);
      if ps[0].address != addr {
        assert ([ps[0]] + Others(ps[1..], addr))[1..] == Others(ps[1..], addr);
      } else {
        assert [] + Others(ps[1..], addr) == Others(ps[1..], addr);
      }
    }
  }

  lemma OthersPool(ps: seq<Proxy>, needConnect: bool, addr: string)
    ensures Others(PoolOf(ps, needConnect), addr) == PoolOf(Others(ps, addr), needConnect)
  {
    var live, grace := Members(ps, needConnect, true), Members(ps, needConnect, false);
    OthersConcat(ByScore(live), ByScore(grace), addr);
    OthersSorted(live, addr);
    OthersSorted(grace, addr);
    OthersMembers(ps, needConnect, true, addr);
    OthersMembers(ps, needConnect, false, addr);
  }

  lemma {:induction false} OthersUnchanged(w: World, ps: seq<Proxy>, ps': seq<Proxy>, addr: string)
    requires FailRecorded(w, ps, ps', addr)
    ensures Others(ps', addr) == Others(ps, addr)
  {
    if ps != [] {
      OthersUnchanged(w, ps[1..], ps'[1..], addr);
      assert ps[0].address == addr ==> ps'[0].address == addr;
    }
  }

  lemma FailIsRecorded(w: World, ps: seq<Proxy>, addr: string)
    ensures FailRecorded(w, ps, AfterFail(w, ps, addr), addr)
  {
  }

  /** After a recorded failure the other pool members are the same, with their status, in the same
      order. */
  lemma OthersKeepTheirPlace(w: World, ps: seq<Proxy>, needConnect: bool, addr: string)
    ensures Others(PoolOf(AfterFail(w, ps, addr), needConnect), addr) == Others(PoolOf(ps, needConnect), addr)
  {
    FailIsRecorded(w, ps, addr);
    OthersUnchanged(w, ps, AfterFail(w, ps, addr), addr);
    OthersPool(ps, needConnect, addr);
    OthersPool(AfterFail(w, ps, addr), needConnect, addr);
  }

  lemma LiveFirst(ps: seq<Proxy>, needConnect: bool)
    ensures var pool := PoolOf(ps, needConnect);
      && (forall p <- pool :: p in ps)
      && forall i, j :: 0 <= i < j < |pool| && pool[j].live ==> pool[i].live
  {
    PoolOrdered(ps, needConnect);
    forall p | p in PoolOf(ps, needConnect)
      ensures p in ps
    {
      assert p in multiset(PoolOf(ps, needConnect));
      PoolHolds(ps, needConnect, p);
    }
  }

  /** If a failure costs the live status, the failed proxy comes behind every live one. */
  lemma FailedComesLast(w: World, ps: seq<Proxy>, needConnect: bool, addr: string)
    requires forall p :: !w.demote(p).live
    ensures var pool' := PoolOf(AfterFail(w, ps, addr), needConnect);
      forall i, j :: 0 <= i < |pool'| && 0 <= j < |pool'| && pool'[i].address == addr && pool'[j].live ==> j < i
  {
    var ps' := AfterFail(w, ps, addr);
    var pool' := PoolOf(ps', needConnect);
    FailIsRecorded(w, ps, addr);
    LiveFirst(ps', needConnect);
    forall i | 0 <= i < |pool'| && pool'[i].address == addr
      ensures !pool'[i].live
    {
      assert pool'[i] in pool';
    }
  }

  /** So when a failure costs the live status and another member is live, the first member that the
      fallback asks is another one, the best of the others. */
  lemma FallbackAsksAnother(w: World, ps: seq<Proxy>, needConnect: bool, addr: string)
    requires forall p :: !w.demote(p).live
    requires exists p <- PoolOf(ps, needConnect) :: p.live && p.address != addr
    ensures var others, pool' := Others(PoolOf(ps, needConnect), addr), PoolOf(AfterFail(w, ps, addr), needConnect);
      others != [] && pool' != [] && pool'[0] == others[0] && pool'[0].live
  {
    var pool, pool' := PoolOf(ps, needConnect), PoolOf(AfterFail(w, ps, addr), needConnect);
    OthersKeepTheirPlace(w, ps, needConnect, addr);
    FailedComesLast(w, ps, needConnect, addr);
    LiveFirst(AfterFail(w, ps, addr), needConnect);
    var p :| p in pool && p.live && p.address != addr;
    OthersHold(pool, addr, p);
    OthersAreThere(pool', addr);
    assert p in pool';
    var j :| 0 <= j < |pool'| && pool'[j] == p;
    assert pool'[0].live && pool'[0].address != addr;
  }

  lemma {:induction false} OthersHold(ps: seq<Proxy>, addr: string, p: Proxy)
    requires p in ps && p.address != addr
    ensures p in Others(ps, addr)
  {
    if ps[0] != p {
      OthersHold(ps[1..], addr, p);
    }
  }

  // ---- Handshakes ----

  /** A plain proxy that is not asked for CONNECT makes no handshake, so an open connection is enough;
      any other attempt ends as the proxy answers, and nobody answers when the answers have run out. */
  lemma SeenMeans(oracle: Answers, tick: nat, k: nat, p: Proxy, c: Custom, needConnect: bool)
    ensures tick + k < |oracle| ==>
      && SeenAt(oracle, tick, k, Negotiates(p, needConnect)) ==
         (if !p.socks && !needConnect && oracle[tick + k] != Down then Accepted else oracle[tick + k])
      && SeenAt(oracle, tick, k, Handshakes(c, needConnect)) ==
         (if !c.socks5 && !needConnect && oracle[tick + k] != Down then Accepted else oracle[tick + k])
    ensures tick + k >= |oracle| ==>
      && SeenAt(oracle, tick, k, Negotiates(p, needConnect)) == Down
      && SeenAt(oracle, tick, k, Handshakes(c, needConnect)) == Down
  {
  }

  // ---- Attempts ----

  /** The first k attempts found the proxy dead or broke in the handshake. */
  predicate AllDied(oracle: Answers, tick: nat, negotiates: bool, k: nat) {
    forall j: nat :: j < k ==>
      SeenAt(oracle, tick, j, negotiates) == Down || SeenAt(oracle, tick, j, negotiates) == Broken
  }

  lemma {:induction false} AttemptsFrom(oracle: Answers, tick: nat, negotiates: bool, k: nat)
    requires k <= CONNECT_RETRIES && AllDied(oracle, tick, negotiates, k)
    ensures var made := k + Made(oracle, tick, negotiates, k);
      && made <= 3
      && (made > k ==> AllDied(oracle, tick, negotiates, made - 1))
      && match Winner(oracle, tick, negotiates, k)
         case Some(i) => made == i + 1 && SeenAt(oracle, tick, i, negotiates) == Accepted
         case None =>
           || (made > k && SeenAt(oracle, tick, made - 1, negotiates) == Refused)
           || (made == 3 && AllDied(oracle, tick, negotiates, 3))
    decreases CONNECT_RETRIES - k
  {
    if k < CONNECT_RETRIES && Retryable(SeenAt(oracle, tick, k, negotiates)) {
      AttemptsFrom(oracle, tick, negotiates, k + 1);
    }
  }

  /** One proxy is tried until an attempt is accepted or refused, at most three times: every attempt but
      the last found it dead or broken, and the last decides. */
  lemma AttemptsExactly(oracle: Answers, tick: nat, negotiates: bool)
    ensures var made := Made(oracle, tick, negotiates, 0);
      && 1 <= made <= 3 && AllDied(oracle, tick, negotiates, made - 1)
      && match Winner(oracle, tick, negotiates, 0)
         case Some(i) => made == i + 1 && SeenAt(oracle, tick, i, negotiates) == Accepted
         case None =>
           SeenAt(oracle, tick, made - 1, negotiates) == Refused || (made == 3 && AllDied(oracle, tick, negotiates, 3))
  {
    AttemptsFrom(oracle, tick, negotiates, 0);
  }

  /** Asking a proxy takes as many answers as attempts are made, and none if it is unknown or excluded. */
  lemma TakesExactly(w: World, tick: nat, ps: seq<Proxy>, addr: string, needConnect: bool)
    ensures AddrTakes(w, tick, ps, addr, needConnect) == 0 <==>
      Lookup(ps, addr).None? || Lookup(ps, addr).value.inBlacklist
    ensures Lookup(ps, addr).Some? && !Lookup(ps, addr).value.inBlacklist ==>
      AddrTakes(w, tick, ps, addr, needConnect) ==
        Made(w.oracle, tick, Negotiates(Lookup(ps, addr).value, needConnect), 0)
  {
    if Lookup(ps, addr).Some? {
      AttemptsExactly(w.oracle, tick, Negotiates(Lookup(ps, addr).value, needConnect));
    }
  }

  /** A request records a failure exactly for a chosen proxy that cannot serve. */
  lemma RecordedExactly(w: World, tick: nat, ps: seq<Proxy>, way: Way, needConnect: bool)
    ensures Recorded(w, tick, ps, way, needConnect) ==
      match way
      case OverProxy(addr) => if CanServe(w.oracle, tick, ps, addr, needConnect) then [] else [addr]
      case _ => []
  {
    if way.OverProxy? {
      AddrServesExactly(w, tick, ps, way.addr, needConnect);
    }
  }

  /** The notes of a connection: a disabled custom proxy that handed over, then a chosen proxy that the
      pool stood in for. */
  lemma TrailExactly(cfg: Config, route: string, c: Carrier)
    ensures var handed :=
        HasPrefix(route, "custom:") && !(route[7..] in cfg.customs && cfg.customs[route[7..]].enabled);
      var way := WayOf(cfg, if handed then cfg.defaultRoute else route);
      Trail(cfg, route, c) ==
        (if handed then [Disabled(route[7..])] else [])
        + (if way.OverProxy? && c.ByPool? then [Rerouted(way.addr)] else [])
  {
    assert !HasPrefix("direct", "custom:");
  }

  /** The number of the winning attempt is noted, except for a request in plain form over a custom
      proxy. */
  lemma RetryNoted(w: World, tick: nat, id: string, custom: Custom, needConnect: bool)
    ensures var served := CustomServes(w, tick, id, custom, needConnect);
      served.By? ==>
        && served.carrier.ByCustom?
        && exists k: nat :: Wins(w.oracle, tick, Handshakes(custom, needConnect), k)
             && served.carrier.retry == if !custom.socks5 && !needConnect then 0 else k
  {
    WinnerWins(w.oracle, tick, Handshakes(custom, needConnect));
  }

  /** Somebody of that pool, with that address, makes no handshake exactly if the request is raw. */
  ghost predicate PoolRaw(pool: seq<Proxy>, addr: string, needConnect: bool, raw: bool) {
    exists p <- pool :: p.address == addr && (raw <==> !needConnect && !p.socks)
  }

  lemma PoolServesRaw(w: World, tick: nat, ps: seq<Proxy>, needConnect: bool)
    ensures var served := PoolServes(w, tick, ps, needConnect);
      served.By? ==>
        && served.carrier.ByPool?
        && PoolRaw(PoolOf(ps, needConnect), served.carrier.addr, needConnect, served.raw)
  {
    var pool := PoolOf(ps, needConnect);
    match PoolWinner(w.oracle, tick, pool, needConnect, 0)
    case None =>
    case Some(k) => assert k < |pool| ==> pool[k] in pool;
  }

  /** The request goes through in plain form exactly over a plain proxy that was not asked for CONNECT,
      be it custom, chosen, or a member of the pool as it stood when it was asked. */
  ghost predicate RawRightly(w: World, ps: seq<Proxy>, way: Way, c: Carrier, needConnect: bool, raw: bool) {
    && (c.ByDirect? ==> !raw)
    && (c.ByCustom? ==> c.id in w.cfg.customs && (raw <==> !needConnect && !w.cfg.customs[c.id].socks5))
    && (c.ByRating? ==> Lookup(ps, c.addr).Some? && (raw <==> !needConnect && !Lookup(ps, c.addr).value.socks))
    && (c.ByPool? ==>
          var rated := if way.OverProxy? then AfterFail(w, ps, way.addr) else ps;
          PoolRaw(PoolOf(rated, needConnect), c.addr, needConnect, raw))
  }

  lemma SelectedRaw(w: World, tick: nat, ps: seq<Proxy>, addr: string, needConnect: bool)
    ensures var served := SelectedServes(w, tick, ps, addr, needConnect);
      served.By? ==> RawRightly(w, ps, OverProxy(addr), served.carrier, needConnect, served.raw)
  {
    AddrServesExactly(w, tick, ps, addr, needConnect);
    PoolServesRaw(w, tick + AddrTakes(w, tick, ps, addr, needConnect), AfterFail(w, ps, addr), needConnect);
  }

  lemma RawExactly(w: World, tick: nat, ps: seq<Proxy>, way: Way, needConnect: bool)
    ensures var served := WayServes(w, tick, ps, way, needConnect);
      served.By? ==> RawRightly(w, ps, way, served.carrier, needConnect, served.raw)
  {
    match way
    case Directly =>
    case OverCustom(id) =>
    case OverProxy(addr) => SelectedRaw(w, tick, ps, addr, needConnect);
    case FromPool => PoolServesRaw(w, tick, ps, needConnect);
  }

  lemma AfterFailKnows(w: World, ps: seq<Proxy>, addr: string, a: string)
    ensures HasAddress(AfterFail(w, ps, addr), a) <==> HasAddress(ps, a)
  {
    assert forall i :: 0 <= i < |ps| ==> AfterFail(w, ps, addr)[i].address == ps[i].address;
  }

  /** The way is served exactly if one of its attempts wins, and by a carrier it allows; no answer
      comes exactly from a disabled custom proxy. */
  ghost predicate ServedRightly(w: World, tick: nat, ps: seq<Proxy>, way: Way, needConnect: bool) {
    var served := WayServes(w, tick, ps, way, needConnect);
    && (served.TooDeep? <==> way.OverCustom? && !Enabled(w.cfg, way.id))
    && (served.By? <==> Carriable(w, tick, ps, way, needConnect))
    && (served.By? ==> WayAllows(w.cfg, way, served.carrier) && Known(ps, served.carrier))
  }

  lemma CustomIsRight(w: World, tick: nat, ps: seq<Proxy>, id: string, needConnect: bool)
    ensures ServedRightly(w, tick, ps, OverCustom(id), needConnect)
  {
    if id in w.cfg.customs {
      CustomServesExactly(w, tick, id, w.cfg.customs[id], needConnect);
    }
  }

  lemma KnownBefore(w: World, ps: seq<Proxy>, addr: string, c: Carrier)
    requires Known(AfterFail(w, ps, addr), c)
    ensures Known(ps, c)
  {
    if c.ByRating? || c.ByPool? {
      AfterFailKnows(w, ps, addr, c.addr);
    }
  }

  lemma FallbackServesExactly(w: World, tick: nat, ps: seq<Proxy>, addr: string, needConnect: bool)
    ensures var served := FallbackServes(w, tick, ps, addr, needConnect);
      && !served.TooDeep?
      && (served.By? <==> FallbackCanServe(w, tick, ps, addr, needConnect))
      && (served.By? ==> served.carrier.ByPool? && Known(ps, served.carrier))
  {
    var served := FallbackServes(w, tick, ps, addr, needConnect);
    PoolServesExactly(
      w, tick + AddrTakes(w, tick, ps, addr, needConnect), AfterFail(w, ps, addr), needConnect);
    if served.By? {
      KnownBefore(w, ps, addr, served.carrier);
    }
  }

  lemma SelectedServesExactly(w: World, tick: nat, ps: seq<Proxy>, addr: string, needConnect: bool)
    ensures ServedRightly(w, tick, ps, OverProxy(addr), needConnect)
    ensures var served := SelectedServes(w, tick, ps, addr, needConnect);
      CanServe(w.oracle, tick, ps, addr, needConnect) <==> served.By? && served.carrier.ByRating?
  {
    AddrServesExactly(w, tick, ps, addr, needConnect);
    FallbackServesExactly(w, tick, ps, addr, needConnect);
  }

  lemma PoolIsRight(w: World, tick: nat, ps: seq<Proxy>, needConnect: bool)
    ensures ServedRightly(w, tick, ps, FromPool, needConnect)
  {
    PoolServesExactly(w, tick, ps, needConnect);
  }

  lemma WayServesExactly(w: World, tick: nat, ps: seq<Proxy>, way: Way, needConnect: bool)
    ensures ServedRightly(w, tick, ps, way, needConnect)
  {
    match way
    case Directly =>
    case OverCustom(id) => CustomIsRight(w, tick, ps, id, needConnect);
    case OverProxy(addr) => SelectedServesExactly(w, tick, ps, addr, needConnect);
    case FromPool => PoolIsRight(w, tick, ps, needConnect);
  }

  /** A request is carried exactly if its way, or that of the default route in place of a disabled
      custom proxy, has an attempt that wins, and only by a carrier that the route allows; no answer
      comes exactly if both are disabled custom proxies. */
  lemma CarriedExactly(w: World, tick: nat, ps: seq<Proxy>, route: string, needConnect: bool)
    ensures var served, r := CarriedBy(w, tick, ps, route, needConnect), Resolved(w.cfg, route);
      && (served.TooDeep? <==> DisabledCustom(w.cfg, route) && DisabledCustom(w.cfg, w.cfg.defaultRoute))
      && (served.By? <==> Carriable(w, tick, ps, WayOf(w.cfg, r), needConnect))
      && (served.By? ==> Allows(w.cfg, r, served.carrier) && Known(ps, served.carrier))
  {
    var served, r := CarriedBy(w, tick, ps, route, needConnect), Resolved(w.cfg, route);
    WayServesExactly(w, tick, ps, WayOf(w.cfg, r), needConnect);
    if served.By? {
      WayIsAllowed(w.cfg, r, served.carrier);
    }
  }

  /** With pool fallback off, a request for a chosen proxy is carried by that proxy exactly if it can
      serve, and otherwise by nobody. */
  lemma Strict(w: World, tick: nat, ps: seq<Proxy>, route: string, needConnect: bool)
    requires !w.cfg.fallbackPool && Selected(w.cfg, Resolved(w.cfg, route)).Some?
    ensures var addr := Selected(w.cfg, Resolved(w.cfg, route)).value;
      var served := CarriedBy(w, tick, ps, route, needConnect);
      && (served.By? ==> served.carrier.ByRating? && served.carrier.addr == addr)
      && if CanServe(w.oracle, tick, ps, addr, needConnect) then served.By? else served.Nobody?
  {
    var r := Resolved(w.cfg, route);
    SelectedServesExactly(w, tick, ps, Selected(w.cfg, r).value, needConnect);
  }

  /** Ids and addresses that the chain can carry. */
  predicate PlainNames(cfg: Config, ratings: seq<Proxy>, route: string) {
    && NoArrow(route) && NoArrow(cfg.defaultRoute) && NoArrow(cfg.activeAddr)
    && (forall i :: 0 <= i < |ratings| ==> Plain(ratings[i].address))
  }

  lemma NamesArePlain(cfg: Config, ratings: seq<Proxy>, route: string, c: Carrier)
    requires PlainNames(cfg, ratings, route) && Known(ratings, c) && Allows(cfg, Resolved(cfg, route), c)
    ensures PlainCarrier(c) && forall n <- Trail(cfg, route, c) :: PlainNote(n)
  {
    var r := Resolved(cfg, route);
    assert NoArrow(r);
    TailNoArrow(route, 7);
    TailNoArrow(r, 7);
    TailNoArrow(r, 6);
  }

  lemma TailNoArrow(s: string, n: nat)
    requires NoArrow(s)
    ensures n <= |s| ==> NoArrow(s[n..])
  {
  }

  lemma WayTokens(addr: string, c: Carrier)
    ensures Tokens(WayNotes(OverProxy(addr), c), c) ==
      (if c.ByPool? then [NoteText(Rerouted(addr))] else []) + [TokenOf(c)]
  {
  }

  class Connector {
    const world: World
    var ratings: seq<Proxy>
    var tick: nat
    var failoverIdx: nat
    var chain: seq<string>
    var trafficFails: seq<string>

    constructor (world: World, ratings: seq<Proxy>)
      ensures this.world == world && this.ratings == ratings
      ensures chain == [] && trafficFails == [] && tick == 0
    {
      this.world, this.ratings := world, ratings;
      tick, failoverIdx, chain, trafficFails := 0, 0, [], [];
    }

    method Attempt(negotiates: bool) returns (o: Outcome)
      modifies this`tick
      ensures tick == old(tick) + 1 && o == Seen(AnswerAt(world.oracle, old(tick)), negotiates)
    {
      o := AnswerAt(world.oracle, tick);
      tick := tick + 1;
      if !negotiates && !o.Down? {
        o := Accepted;
      }
    }

    method RecordTrafficFail(addr: string)
      modifies this`trafficFails, this`ratings
      ensures trafficFails == old(trafficFails) + [addr] && ratings == AfterFail(world, old(ratings), addr)
      ensures |ratings| == |old(ratings)|
      ensures forall i :: 0 <= i < |ratings| && old(ratings)[i].address != addr ==> ratings[i] == old(ratings)[i]
      ensures forall i :: 0 <= i < |ratings| && old(ratings)[i].address == addr ==>
        ratings[i] == world.demote(old(ratings)[i]).(address := addr)
    {
      trafficFails := trafficFails + [addr];
      ratings := AfterFail(world, ratings, addr);
    }

    method ViaDirect() returns (served: Served)
      modifies this`tick, this`chain
      ensures served == DirectServes(world, old(tick))
      ensures chain == old(chain) + if served.By? then [TokenOf(served.carrier)] else []
      ensures served.By? ==> chain == old(chain) + [if world.cfg.channel then "direct via channel" else "direct"]
    {
      var o := Attempt(false);
      if o.Accepted? {
        chain := chain + [if world.cfg.channel then "direct via channel" else "direct"];
        return By(ByDirect(world.cfg.channel), false);
      }
      return Nobody;
    }

    /** Up to three attempts; only a dead or broken connection is retried. */
    method Retry(negotiates: bool) returns (winner: Option<nat>)
      modifies this`tick
      ensures forall k: nat :: Wins(world.oracle, old(tick), negotiates, k) <==> winner == Some(k)
      ensures winner == Winner(world.oracle, old(tick), negotiates, 0)
      ensures tick == old(tick) + Made(world.oracle, old(tick), negotiates, 0)
    {
      WinnerWins(world.oracle, tick, negotiates);
      for attempt := 0 to CONNECT_RETRIES
        invariant tick == old(tick) + attempt
        invariant Winner(world.oracle, old(tick), negotiates, 0) == Winner(world.oracle, old(tick), negotiates, attempt)
        invariant Made(world.oracle, old(tick), negotiates, 0)
          == attempt + Made(world.oracle, old(tick), negotiates, attempt)
      {
        var o := Attempt(negotiates);
        assert o == SeenAt(world.oracle, old(tick), attempt, negotiates);
        if o.Accepted? {
          return Some(attempt);
        }
        if o.Refused? {
          return None;
        }
      }
      return None;
    }

    method ViaCustom(id: string, custom: Custom, needConnect: bool) returns (served: Served)
      modifies this`tick, this`chain
      ensures served == CustomServes(world, old(tick), id, custom, needConnect)
      ensures served.By? <==> exists k: nat :: Wins(world.oracle, old(tick), Handshakes(custom, needConnect), k)
      ensures served.By? && !served.raw ==>
        Wins(world.oracle, old(tick), Handshakes(custom, needConnect), served.carrier.retry)
      ensures chain == old(chain) + if served.By? then [TokenOf(served.carrier)] else []
    {
      var winner := Retry(Handshakes(custom, needConnect));
      if winner.None? {
        return Nobody;
      }
      var raw := !custom.socks5 && !needConnect;
      var carrier := ByCustom(id, if raw then 0 else winner.value);
      chain := chain + [TokenOf(carrier)];
      return By(carrier, raw);
    }

    method ViaAddr(addr: string, needConnect: bool) returns (served: Served)
      modifies this`tick, this`chain
      ensures served == AddrServes(world, old(tick), ratings, addr, needConnect)
      ensures served.By? <==> CanServe(world.oracle, old(tick), ratings, addr, needConnect)
      ensures served.By? ==>
        && served.carrier.ByRating? && served.carrier.addr == addr && Known(ratings, served.carrier)
        && Wins(world.oracle, old(tick), Negotiates(Lookup(ratings, addr).value, needConnect), served.carrier.retry)
      ensures tick == old(tick) + AddrTakes(world, old(tick), ratings, addr, needConnect)
      ensures chain == old(chain) + if served.By? then [TokenOf(served.carrier)] else []
    {
      AddrServesExactly(world, tick, ratings, addr, needConnect);
      var i := 0;
      while i < |ratings| && ratings[i].address != addr
        invariant 0 <= i <= |ratings| && Lookup(ratings[i..], addr) == Lookup(ratings, addr)
        modifies {}
      {
        assert ratings[i..][1..] == ratings[i + 1..];
        i := i + 1;
      }
      if i == |ratings| {
        return Nobody;
      }
      assert Lookup(ratings, addr) == Some(ratings[i]);
      served := ViaRating(ratings[i], needConnect);
    }

    method ViaRating(p: Proxy, needConnect: bool) returns (served: Served)
      modifies this`tick, this`chain
      ensures served == RatingServes(world, old(tick), p, needConnect)
      ensures tick == old(tick) + if p.inBlacklist then 0 else
        Made(world.oracle, old(tick), Negotiates(p, needConnect), 0)
      ensures chain == old(chain) + if served.By? then [TokenOf(served.carrier)] else []
    {
      if p.inBlacklist {
        return Nobody;
      }
      var winner := Retry(Negotiates(p, needConnect));
      if winner.None? {
        return Nobody;
      }
      var carrier := ByRating(p.address, winner.value);
      chain := chain + [TokenOf(carrier)];
      return By(carrier, !needConnect && !p.socks);
    }

    /** The first of the leading eight pool members to accept. */
    method AskPool(pool: seq<Proxy>, needConnect: bool) returns (winner: Option<nat>)
      modifies this`tick
      ensures winner == PoolWinner(world.oracle, old(tick), pool, needConnect, 0)
      ensures winner.Some? ==> winner.value < |pool|
    {
      var limit := if |pool| < POOL_TRIES then |pool| else POOL_TRIES;
      for attempt := 0 to limit
        invariant tick == old(tick) + attempt
        invariant PoolWinner(world.oracle, old(tick), pool, needConnect, 0)
          == PoolWinner(world.oracle, old(tick), pool, needConnect, attempt)
      {
        var o := Attempt(Negotiates(pool[attempt], needConnect));
        if o.Accepted? {
          return Some(attempt);
        }
      }
      return None;
    }

    method ViaPool(needConnect: bool) returns (served: Served)
      modifies this`tick, this`chain, this`failoverIdx
      ensures served == PoolServes(world, old(tick), ratings, needConnect)
      ensures served.By? ==> served.carrier.ByPool?
      ensures var pool := PoolOf(ratings, needConnect);
              if served.By? then
                exists k: nat :: PoolWins(world.oracle, old(tick), pool, needConnect, k)
                  && served == By(ByPool(pool[k].address), !needConnect && !pool[k].socks)
                  && failoverIdx == (k + 1) % |pool|
              else forall k: nat :: !PoolWins(world.oracle, old(tick), pool, needConnect, k)
      ensures served.Nobody? ==> failoverIdx == old(failoverIdx)
      ensures chain == old(chain) + if served.By? then [TokenOf(served.carrier)] else []
    {
      var pool := PoolOf(ratings, needConnect);
      PoolWinnerWins(world.oracle, tick, pool, needConnect);
      var winner := AskPool(pool, needConnect);
      if winner.None? {
        return Nobody;
      }
      var p := pool[winner.value];
      failoverIdx := (winner.value + 1) % |pool|;
      chain := chain + [TokenOf(ByPool(p.address))];
      return By(ByPool(p.address), !needConnect && !p.socks);
    }

    /** What follows the failure of a selected proxy: it is recorded, and with the fallback on the
        pool is asked. */
    method Reroute(addr: string, needConnect: bool) returns (served: Served)
      modifies this`tick, this`chain, this`failoverIdx, this`trafficFails, this`ratings
      ensures served == if !world.cfg.fallbackPool then Nobody else
        PoolServes(world, old(tick), AfterFail(world, old(ratings), addr), needConnect)
      ensures trafficFails == old(trafficFails) + [addr] && ratings == AfterFail(world, old(ratings), addr)
      ensures served.By? ==> served.carrier.ByPool?
      ensures served.By? ==> chain == old(chain) + [NoteText(Rerouted(addr))] + [TokenOf(served.carrier)]
    {
      RecordTrafficFail(addr);
      if !world.cfg.fallbackPool {
        return Nobody;
      }
      chain := chain + [NoteText(Rerouted(addr))];
      served := ViaPool(needConnect);
    }

    /** One rated proxy, then the pool when the fallback is on; a failure is recorded first. */
    method SelectedThenPool(addr: string, needConnect: bool) returns (served: Served)
      modifies this`tick, this`chain, this`failoverIdx, this`trafficFails, this`ratings
      ensures served == SelectedServes(world, old(tick), old(ratings), addr, needConnect)
      ensures CanServe(world.oracle, old(tick), old(ratings), addr, needConnect) <==>
        served.By? && served.carrier.ByRating?
      ensures if AddrServes(world, old(tick), old(ratings), addr, needConnect).By?
        then trafficFails == old(trafficFails) && ratings == old(ratings)
        else
          && trafficFails == old(trafficFails) + [addr] && ratings == AfterFail(world, old(ratings), addr)
          && FailRecorded(world, old(ratings), ratings, addr)
      ensures served.By? ==> chain == old(chain) + Tokens(WayNotes(OverProxy(addr), served.carrier), served.carrier)
    {
      ghost var first, rated := tick, ratings;
      served := ViaAddr(addr, needConnect);
      if served.By? {
        WayTokens(addr, served.carrier);
        return;
      }
      served := Reroute(addr, needConnect);
      assert world.cfg.fallbackPool ==> served == FallbackServes(world, first, rated, addr, needConnect);
      if served.By? {
        WayTokens(addr, served.carrier);
      }
    }

    method ByWay(way: Way, needConnect: bool) returns (served: Served)
      requires way.OverCustom? ==> Enabled(world.cfg, way.id)
      modifies this`tick, this`chain, this`failoverIdx, this`trafficFails, this`ratings
      ensures served == WayServes(world, old(tick), old(ratings), way, needConnect)
      ensures trafficFails == old(trafficFails) + Recorded(world, old(tick), old(ratings), way, needConnect)
      ensures served.By? ==> chain == old(chain) + Tokens(WayNotes(way, served.carrier), served.carrier)
    {
      match way
      case Directly => served := ViaDirect();
      case OverCustom(id) => served := ViaCustom(id, world.cfg.customs[id], needConnect);
      case FromPool => served := ViaPool(needConnect);
      case OverProxy(addr) => served := SelectedThenPool(addr, needConnect);
    }

    /** `depth` is how often a route may still hand over to the default route. */
    method ByRoute(route: string, needConnect: bool, depth: nat) returns (served: Served)
      modifies this`tick, this`chain, this`failoverIdx, this`trafficFails, this`ratings
      ensures DisabledCustom(world.cfg, route) && depth == 0 ==>
        served.TooDeep? && trafficFails == old(trafficFails)
      ensures !DisabledCustom(world.cfg, route) || depth > 0 ==>
        && served == CarriedBy(world, old(tick), old(ratings), route, needConnect)
        && trafficFails == old(trafficFails) + Recorded(
             world, old(tick), old(ratings), WayOf(world.cfg, Resolved(world.cfg, route)), needConnect)
        && (served.By? ==>
              chain == old(chain) + Tokens(Trail(world.cfg, route, served.carrier), served.carrier))
      decreases depth
    {
      var way := WayOf(world.cfg, route);
      if way.OverCustom? && !Enabled(world.cfg, way.id) {
        chain := chain + [NoteText(Disabled(way.id))];
        if depth == 0 {
          return TooDeep;
        }
        served := ByRoute(world.cfg.defaultRoute, needConnect, depth - 1);
        return;
      }
      served := ByWay(way, needConnect);
    }

    /** A whole request. Who carries it is decided by the answers, the settings and the ratings alone;
        with the fallback off a chosen proxy carries it or nobody does. The logged text, split and
        decoded, names the carrier, and its kind is the true one unless the word "fallback" hides in a
        name. */
    method Serve(route: string, needConnect: bool, depth: nat)
      returns (served: Served, address: string, kind: string, ghost notes: seq<Note>)
      requires chain == [] && PlainNames(world.cfg, ratings, route) && depth > 0
      modifies this`tick, this`chain, this`failoverIdx, this`trafficFails, this`ratings
      ensures served == CarriedBy(world, old(tick), old(ratings), route, needConnect)
      ensures served.TooDeep? <==> DisabledCustom(world.cfg, route) && DisabledCustom(world.cfg, world.cfg.defaultRoute)
      ensures served.By? <==> Carriable(
        world, old(tick), old(ratings), WayOf(world.cfg, Resolved(world.cfg, route)), needConnect)
      ensures !world.cfg.fallbackPool && Selected(world.cfg, Resolved(world.cfg, route)).Some? ==>
        var addr := Selected(world.cfg, Resolved(world.cfg, route)).value;
        && (served.By? ==> served.carrier.ByRating? && served.carrier.addr == addr)
        && if CanServe(world.oracle, old(tick), old(ratings), addr, needConnect) then served.By? else served.Nobody?
      ensures served.By? ==>
        && Allows(world.cfg, Resolved(world.cfg, route), served.carrier)
        && notes == Trail(world.cfg, route, served.carrier)
        && address == Address(served.carrier)
        && (kind == Kind(served.carrier, WasRerouted(notes)) <==>
            !(served.carrier.ByPool? && !WasRerouted(notes) && Spells(notes, served.carrier)))
    {
      CarriedExactly(world, tick, ratings, route, needConnect);
      if !world.cfg.fallbackPool && Selected(world.cfg, Resolved(world.cfg, route)).Some? {
        Strict(world, tick, ratings, route, needConnect);
      }
      served := ByRoute(route, needConnect, depth);
      address, kind, notes := "", "", [];
      if served.By? {
        notes := Trail(world.cfg, route, served.carrier);
        assert chain == Tokens(notes, served.carrier);
        var text := Join(chain, ARROW);
        var decoded := Effective(SplitArrow(text));
        address, kind := decoded.0, decoded.1;
        NamesArePlain(world.cfg, old(ratings), route, served.carrier);
        DecodedIsActual(notes, served.carrier);
      }
    }
  }
}

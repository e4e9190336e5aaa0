// What a rating holds after any history of checks and traffic failures, told from the events alone.
// Models hunt/check_rating.py, hunt/check_rating_apply.py and the blacklist lookup of
// hunt/ip_blacklist.py.

module RatingHistory {
  import opened Wrappers
  import opened Rating

  function LastOr<T>(items: seq<T>, default: T): T {
    if items == [] then default else items[|items| - 1]
  }

  lemma LastOfMore<T>(x: T, items: seq<T>, default: T)
    ensures LastOr([x] + items, default) == LastOr(items, x)
    ensures LastOr([] + items, default) == LastOr(items, default)
  {
    assert [] + items == items;
  }

  // ---- What the events say ----

  /** The successful checks, in order. */
  function Passes(events: seq<Event>): seq<Probe> {
    if events == [] then []
    else (if events[0].CheckOk? then [events[0].probe] else []) + Passes(events[1..])
  }

  predicate IsCheck(e: Event) { e.CheckOk? || e.CheckFailed? }

  function Checks(events: seq<Event>): nat {
    if events == [] then 0 else (if IsCheck(events[0]) then 1 else 0) + Checks(events[1..])
  }

  /** The blacklist lookups that were made, in order. */
  function Lookups(events: seq<Event>): seq<nat> {
    if events == [] then []
    else (if IsCheck(events[0]) && events[0].hits.Some? then [events[0].hits.value] else []) + Lookups(events[1..])
  }

  /** The exit flags that were captured, in order. */
  function Captured(events: seq<Event>): seq<Flags> {
    if events == [] then []
    else
      (if events[0].CheckOk? && events[0].probe.egress.Some? then [events[0].probe.egress.value] else [])
      + Captured(events[1..])
  }

  /** The external reading is usable. */
  predicate Usable(p: Probe) {
    p.risk.Some? && p.risk.value >= 0 && p.risk.value <= 100
  }

  /** The times at which flags were captured or an external reading was usable, in order. */
  function ReadingTimes(events: seq<Event>): seq<real> {
    if events == [] then []
    else
      (if events[0].CheckOk? && (events[0].probe.egress.Some? || Usable(events[0].probe)) then [events[0].now] else [])
      + ReadingTimes(events[1..])
  }

  function Speeds(events: seq<Event>): seq<real> {
    if events == [] then []
    else (if events[0].CheckOk? then [events[0].probe.speed] else []) + Speeds(events[1..])
  }

  function Positive(xs: seq<real>): seq<real> {
    if xs == [] then [] else (if xs[0] > 0.0 then [xs[0]] else []) + Positive(xs[1..])
  }

  function Sum(xs: seq<real>): real {
    if xs == [] then 0.0 else xs[0] + Sum(xs[1..])
  }

  /** The failures at the end. */
  function Streak(outcomes: seq<bool>): nat {
    if outcomes == [] || outcomes[|outcomes| - 1] then 0 else 1 + Streak(outcomes[..|outcomes| - 1])
  }

  predicate AllFailed(outcomes: seq<bool>) {
    forall o <- outcomes :: !o
  }

  lemma {:induction false} StreakOfMore(o: bool, rest: seq<bool>)
    ensures Streak([o] + rest) == if AllFailed(rest) then (if o then 0 else 1) + |rest| else Streak(rest)
    ensures AllFailed(rest) ==> Streak(rest) == |rest|
    decreases |rest|
  {
    var all := [o] + rest;
    if rest == [] {
      assert all == [o] && all[..0] == [];
      assert Streak([]) == 0;
    } else {
      var init, last := rest[..|rest| - 1], rest[|rest| - 1];
      assert rest == init + [last] && all[|all| - 1] == last && all[..|all| - 1] == [o] + init;
      StreakOfMore(o, init);
      assert last in rest && forall x <- init :: x in rest;
      assert forall x <- rest :: x in init || x == last;
      assert AllFailed(rest) <==> AllFailed(init) && !last;
    }
  }

  lemma FailedMore(o: bool, rest: seq<bool>)
    ensures AllFailed([o] + rest) <==> !o && AllFailed(rest)
  {
    var all := [o] + rest;
    assert all[0] == o && forall x <- all :: x == o || x in rest;
    assert o in all && forall x <- rest :: x in all;
  }

  // ---- Lookups ----

  lemma HitsStep(r: Record, e: Event)
    ensures Step(r, e).hits == if IsCheck(e) && e.hits.Some? then e.hits.value else r.hits
  {
    if e.CheckOk? {
      PassFrame(r, e.now, e.probe, e.hits);
    }
  }

  /** What one successful check leaves of the fields that are told here. */
  lemma PassFrame(r: Record, now: real, p: Probe, hits: Option<nat>)
    ensures var s := Passed(r, now, p, hits);
      && s.hits == (if hits.Some? then hits.value else r.hits)
      && s.checksTotal == r.checksTotal + 1 && s.checksOk == r.checksOk + 1
      && s.lastStatus == Live && s.consecutiveFails == 0
      && s.inBlacklist == r.inBlacklist && s.socksPort == r.socksPort
  {
  }

  /** The blacklist hits are those of the last lookup, or the initial ones if there was none. */
  lemma {:induction false} HitsHistory(r: Record, events: seq<Event>)
    ensures Replay(r, events).hits == LastOr(Lookups(events), r.hits)
    decreases |events|
  {
    if events != [] {
      var e := events[0];
      HitsStep(r, e);
      HitsHistory(Step(r, e), events[1..]);
      LastOfMore(Step(r, e).hits, Lookups(events[1..]), r.hits);
    }
  }

  // ---- Exit flags ----

  predicate FlagsAre(r: Record, f: Flags) {
    r.hosting == f.hosting && r.proxy == f.proxy && r.mobile == f.mobile
  }

  function FlagsOf(r: Record): Flags { Flags(r.hosting, r.proxy, r.mobile) }

  lemma FlagsPass(r: Record, now: real, p: Probe, hits: Option<nat>)
    ensures var s := Passed(r, now, p, hits);
      && FlagsAre(s, if p.egress.Some? then p.egress.value else FlagsOf(r))
      && s.fraudCheckedTs == if p.egress.Some? || Usable(p) then now else r.fraudCheckedTs
  {
  }

  lemma FlagsStep(r: Record, e: Event)
    ensures FlagsAre(Step(r, e), if e.CheckOk? && e.probe.egress.Some? then e.probe.egress.value else FlagsOf(r))
    ensures Step(r, e).fraudCheckedTs ==
      if e.CheckOk? && (e.probe.egress.Some? || Usable(e.probe)) then e.now else r.fraudCheckedTs
  {
    if e.CheckOk? {
      FlagsPass(r, e.now, e.probe, e.hits);
    }
  }

  /** The exit flags are the last ones captured, and their age counts from the last reading. */
  lemma {:induction false} FlagsHistory(r: Record, events: seq<Event>)
    ensures FlagsAre(Replay(r, events), LastOr(Captured(events), FlagsOf(r)))
    ensures Replay(r, events).fraudCheckedTs == LastOr(ReadingTimes(events), r.fraudCheckedTs)
    decreases |events|
  {
    if events != [] {
      var s := Step(r, events[0]);
      FlagsStep(r, events[0]);
      FlagsHistory(s, events[1..]);
      LastOfMore(FlagsOf(s), Captured(events[1..]), FlagsOf(r));
      LastOfMore(s.fraudCheckedTs, ReadingTimes(events[1..]), r.fraudCheckedTs);
    }
  }

  // ---- Capabilities ----

  /** The capabilities that the last successful check found. */
  predicate ChannelOf(r: Record, p: Probe) {
    r.supportsConnect == p.supportsConnect && r.sslSupported == p.sslSupported && r.mitmSuspect == p.mitmSuspect
  }

  predicate SameChannel(r: Record, s: Record) {
    s.supportsConnect == r.supportsConnect && s.sslSupported == r.sslSupported && s.mitmSuspect == r.mitmSuspect
  }

  predicate IsSocks(p: Protocol) { p == Socks4 || p == Socks5 }

  lemma ChannelPass(r: Record, now: real, p: Probe, hits: Option<nat>)
    ensures ChannelOf(Passed(r, now, p, hits), p)
    ensures Passed(r, now, p, hits).protocol == if p.sslSupported && !IsSocks(r.protocol) then Https else r.protocol
  {
  }

  lemma ChannelStep(r: Record, e: Event)
    ensures if e.CheckOk? then ChannelOf(Step(r, e), e.probe) else SameChannel(r, Step(r, e))
    ensures Step(r, e).protocol ==
      if e.CheckOk? && e.probe.sslSupported && !IsSocks(r.protocol) then Https else r.protocol
  {
    if e.CheckOk? {
      ChannelPass(r, e.now, e.probe, e.hits);
    }
  }

  /** CONNECT, TLS and interception are as the last successful check found them. */
  lemma {:induction false} ChannelHistory(r: Record, events: seq<Event>)
    ensures var s, passes := Replay(r, events), Passes(events);
      if passes == [] then SameChannel(r, s) else ChannelOf(s, passes[|passes| - 1])
    decreases |events|
  {
    if events != [] {
      ChannelStep(r, events[0]);
      ChannelHistory(Step(r, events[0]), events[1..]);
    }
  }

  predicate SomeSsl(passes: seq<Probe>) {
    exists p <- passes :: p.sslSupported
  }

  lemma SomeSslMore(p: Probe, rest: seq<Probe>)
    ensures SomeSsl([p] + rest) <==> p.sslSupported || SomeSsl(rest)
  {
    assert p in [p] + rest && forall q <- rest :: q in [p] + rest;
    assert forall q <- [p] + rest :: q == p || q in rest;
  }

  /** A proxy is HTTPS from the first successful check with TLS on, unless it is a SOCKS proxy, which it
      stays. */
  lemma {:induction false} ProtocolHistory(r: Record, events: seq<Event>)
    ensures Replay(r, events).protocol == if !IsSocks(r.protocol) && SomeSsl(Passes(events)) then Https else r.protocol
    decreases |events|
  {
    if events != [] {
      var e, rest := events[0], Passes(events[1..]);
      ChannelStep(r, e);
      ProtocolHistory(Step(r, e), events[1..]);
      if e.CheckOk? {
        SomeSslMore(e.probe, rest);
      } else {
        assert Passes(events) == rest;
      }
    }
  }

  // ---- Speeds ----

  lemma SpeedPass(r: Record, now: real, p: Probe, hits: Option<nat>)
    ensures var s := Passed(r, now, p, hits);
      if p.speed > 0.0
      then
        && s.speedEwma == Average(r.speedEwma, p.speed) && s.speedFails == 0
        && s.speedCount == r.speedCount + 1 && s.speedSum == r.speedSum + p.speed
      else
        && s.speedEwma == r.speedEwma && s.speedFails == r.speedFails + 1
        && s.speedCount == r.speedCount && s.speedSum == r.speedSum
  {
  }

  predicate SameSpeed(r: Record, s: Record) {
    && s.speedEwma == r.speedEwma && s.speedFails == r.speedFails
    && s.speedCount == r.speedCount && s.speedSum == r.speedSum
  }

  lemma SpeedStep(r: Record, e: Event)
    requires !e.CheckOk?
    ensures SameSpeed(r, Step(r, e))
  {
  }

  /** The speed average is that of the positive speeds in order, which are also counted and summed. */
  lemma {:induction false} SpeedHistory(r: Record, events: seq<Event>)
    ensures var s, xs := Replay(r, events), Positive(Speeds(events));
      && s.speedEwma == Averaged(r.speedEwma, xs)
      && s.speedCount == r.speedCount + |xs|
      && s.speedSum == r.speedSum + Sum(xs)
    decreases |events|
  {
    if events != [] {
      var e, rest := events[0], Speeds(events[1..]);
      SpeedHistory(Step(r, e), events[1..]);
      if e.CheckOk? {
        SpeedPass(r, e.now, e.probe, e.hits);
        assert Speeds(events) == [e.probe.speed] + rest && Speeds(events)[1..] == rest;
        assert ([e.probe.speed] + Positive(rest))[1..] == Positive(rest);
        assert [] + Positive(rest) == Positive(rest);
      } else {
        SpeedStep(r, e);
        assert Speeds(events) == rest;
      }
    }
  }

  lemma LatencyPass(r: Record, now: real, p: Probe, hits: Option<nat>)
    ensures var s := Passed(r, now, p, hits);
      s.latencyCount == r.latencyCount + 1 && s.latencySum == r.latencySum + p.latency
  {
  }

  lemma LatencyMissed(r: Record, hits: Option<nat>)
    ensures Missed(r, hits).latencyCount == r.latencyCount && Missed(r, hits).latencySum == r.latencySum
  {
  }

  lemma LatencyDropped(r: Record, now: real)
    ensures Dropped(r, now).latencyCount == r.latencyCount && Dropped(r, now).latencySum == r.latencySum
  {
  }

  lemma LatencyKept(r: Record, e: Event)
    requires !e.CheckOk?
    ensures Step(r, e).latencyCount == r.latencyCount && Step(r, e).latencySum == r.latencySum
  {
    match e
    case CheckFailed(now, hits) => LatencyMissed(r, hits);
    case TrafficFail(now) => LatencyDropped(r, now);
  }

  /** The latencies of the successful checks are counted and summed. */
  lemma {:induction false} LatencySums(r: Record, events: seq<Event>)
    ensures var s, xs := Replay(r, events), LatenciesOf(events);
      s.latencyCount == r.latencyCount + |xs| && s.latencySum == r.latencySum + Sum(xs)
    decreases |events|
  {
    if events != [] {
      var e, rest := events[0], LatenciesOf(events[1..]);
      LatencySums(Step(r, e), events[1..]);
      if e.CheckOk? {
        LatencyPass(r, e.now, e.probe, e.hits);
        assert LatenciesOf(events) == [e.probe.latency] + rest && LatenciesOf(events)[1..] == rest;
      } else {
        LatencyKept(r, e);
        assert LatenciesOf(events) == rest;
      }
    }
  }

  /** Of every successful check, whether it measured a speed. */
  function Measurements(events: seq<Event>): seq<bool> {
    if events == [] then []
    else (if events[0].CheckOk? then [events[0].probe.speed > 0.0] else []) + Measurements(events[1..])
  }

  /** The speed failures are the checks without a speed since the last one with a speed, on top of the
      initial ones if there was none. */
  lemma {:induction false} SpeedFailsHistory(r: Record, events: seq<Event>)
    ensures var xs := Measurements(events);
      Replay(r, events).speedFails == Streak(xs) + if AllFailed(xs) then r.speedFails else 0
    decreases |events|
  {
    if events != [] {
      var e, rest := events[0], Measurements(events[1..]);
      SpeedFailsHistory(Step(r, e), events[1..]);
      if e.CheckOk? {
        SpeedPass(r, e.now, e.probe, e.hits);
        StreakOfMore(e.probe.speed > 0.0, rest);
        FailedMore(e.probe.speed > 0.0, rest);
      } else {
        SpeedStep(r, e);
        assert Measurements(events) == rest;
      }
    }
  }

  // ---- Counts and status ----

  function StatusAfter(e: Event): Status {
    if e.CheckOk? then Live else Failed
  }

  lemma CountStep(r: Record, e: Event)
    ensures var s := Step(r, e);
      && s.checksTotal == r.checksTotal + (if IsCheck(e) then 1 else 0)
      && s.checksOk == r.checksOk + (if e.CheckOk? then 1 else 0)
      && s.lastStatus == StatusAfter(e)
      && s.inBlacklist == r.inBlacklist && s.socksPort == r.socksPort
  {
    if e.CheckOk? {
      PassFrame(r, e.now, e.probe, e.hits);
    }
  }

  /** The checks are counted, the successful ones separately, and the status is that of the last event. */
  lemma {:induction false} CountHistory(r: Record, events: seq<Event>)
    ensures var s := Replay(r, events);
      && s.checksTotal == r.checksTotal + Checks(events)
      && s.checksOk == r.checksOk + |Passes(events)|
      && s.lastStatus == (if events == [] then r.lastStatus else StatusAfter(events[|events| - 1]))
      && s.inBlacklist == r.inBlacklist && s.socksPort == r.socksPort
    decreases |events|
  {
    if events != [] {
      CountStep(r, events[0]);
      CountHistory(Step(r, events[0]), events[1..]);
    }
  }

  // ---- Outcomes ----

  /** The outcomes that count: every check, and a traffic failure five seconds after the last counted. */
  function Outcomes(last: real, events: seq<Event>): seq<bool>
    decreases |events|
  {
    if events == [] then []
    else if events[0].TrafficFail? then
      if events[0].now - last >= 5.0 then [false] + Outcomes(events[0].now, events[1..])
      else Outcomes(last, events[1..])
    else [events[0].CheckOk?] + Outcomes(last, events[1..])
  }

  /** The moving average over outcomes once it is set. */
  function Mixed(average: real, outcomes: seq<bool>): real
    decreases |outcomes|
  {
    if outcomes == [] then average
    else Mixed(0.75 * average + (if outcomes[0] then 0.25 else 0.0), outcomes[1..])
  }

  lemma OutcomeStep(r: Record, e: Event)
    ensures var s := Step(r, e);
      if e.TrafficFail? then
        if e.now - r.lastTrafficFailTs >= 5.0
        then s.lastTrafficFailTs == e.now && s.consecutiveFails == r.consecutiveFails + 1
        else s.lastTrafficFailTs == r.lastTrafficFailTs && s.consecutiveFails == r.consecutiveFails
      else
        && s.lastTrafficFailTs == r.lastTrafficFailTs
        && s.consecutiveFails == if e.CheckOk? then 0 else r.consecutiveFails + 1
  {
    LastCounted(r, e);
    if e.CheckOk? {
      PassFrame(r, e.now, e.probe, e.hits);
    }
  }

  /** The streak is the number of counted failures since the last success. */
  lemma {:induction false} StreakHistory(r: Record, events: seq<Event>)
    ensures var outcomes := Outcomes(r.lastTrafficFailTs, events);
      Replay(r, events).consecutiveFails ==
        Streak(outcomes) + if AllFailed(outcomes) then r.consecutiveFails else 0
    decreases |events|
  {
    if events != [] {
      var e, s := events[0], Step(r, events[0]);
      OutcomeStep(r, e);
      StreakHistory(s, events[1..]);
      var rest := Outcomes(s.lastTrafficFailTs, events[1..]);
      StreakOfMore(e.CheckOk?, rest);
      var outcomes := Outcomes(r.lastTrafficFailTs, events);
      assert outcomes == rest || outcomes == [e.CheckOk?] + rest;
      FailedMore(e.CheckOk?, rest);
    }
  }

  lemma AverageStep(r: Record, e: Event)
    requires r.srEwma >= 0.0
    ensures Step(r, e).srEwma ==
      if e.TrafficFail? && e.now - r.lastTrafficFailTs < 5.0 then r.srEwma
      else 0.75 * r.srEwma + if e.CheckOk? then 0.25 else 0.0
  {
    if e.CheckOk? {
      AveragePass(r, e.now, e.probe, e.hits);
    }
  }

  lemma AveragePass(r: Record, now: real, p: Probe, hits: Option<nat>)
    ensures Passed(r, now, p, hits).srEwma ==
      0.75 * (if r.srEwma >= 0.0 then r.srEwma else Over((r.checksOk + 1) as real, r.checksTotal + 1)) + 0.25
  {
  }

  /** Once set, the success average mixes in a quarter of every counted outcome, in order. */
  lemma {:induction false} AverageHistory(r: Record, events: seq<Event>)
    requires r.srEwma >= 0.0
    ensures Replay(r, events).srEwma == Mixed(r.srEwma, Outcomes(r.lastTrafficFailTs, events))
    decreases |events|
  {
    if events != [] {
      var e, s := events[0], Step(r, events[0]);
      OutcomeStep(r, e);
      AverageStep(r, e);
      AverageHistory(s, events[1..]);
      var rest := Outcomes(s.lastTrafficFailTs, events[1..]);
      assert ([e.CheckOk?] + rest)[1..] == rest;
    }
  }

  /** Before that, the first counted outcome is mixed into the lifetime rate, a check counted in; with
      no checks at all a traffic failure leaves zero. */
  lemma FirstAverage(r: Record, e: Event)
    requires r.srEwma < 0.0 && !(e.TrafficFail? && e.now - r.lastTrafficFailTs < 5.0)
    ensures Step(r, e).srEwma ==
      match e
      case CheckOk(_, _, _) => 0.75 * Over((r.checksOk + 1) as real, r.checksTotal + 1) + 0.25
      case CheckFailed(_, _) => 0.75 * Over(r.checksOk as real, r.checksTotal + 1)
      case TrafficFail(_) => if r.checksTotal > 0 then 0.75 * Over(r.checksOk as real, r.checksTotal) else 0.0
  {
    if e.CheckOk? {
      AveragePass(r, e.now, e.probe, e.hits);
    }
  }
}

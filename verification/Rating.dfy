// The dynamics of one proxy's rating: moving averages, grace, the throttle on traffic failures, and
// the product-form score. Models hunt/models.py, hunt/check_rating.py (the fields that the score
// reads) and hunt/check_rating_apply.py. Clock readings are parameters; floats are reals.

module Rating {
  import opened Wrappers
  import opened PyText

  // Consecutive failures after which a proven proxy is dropped.
  const GRACE_FAILS: nat := 50

  datatype Protocol = Http | Https | Socks4 | Socks5

  datatype Status = Untested | Live | Failed

  function MinR(a: real, b: real): real { if a <= b then a else b }

  function MaxR(a: real, b: real): real { if a <= b then b else a }

  function Times(a: real, b: real): real { a * b }

  function Over(a: real, n: nat): real
    requires n > 0
  {
    a / n as real
  }

  function Settled(average: real, ok: nat, total: nat): real {
    if average >= 0.0 then average else if total > 0 then Over(ok as real, total) else 0.0
  }

  /** 0.75 to the n. */
  function Decay(n: nat): real {
    if n == 0 then 1.0 else 0.75 * Decay(n - 1)
  }

  function Product(base: real, speed: real, modifier: real): real {
    Times(Times(base, speed), modifier)
  }

  /** The text after the last colon, as rsplit(":", 1)[1]. */
  function AfterLastColon(s: string): Option<string> {
    if s == "" then None
    else if s[|s| - 1] == ':' then Some("")
    else match AfterLastColon(s[..|s| - 1])
      case None => None
      case Some(t) => Some(t + [s[|s| - 1]])
  }

  predicate SocksPort(address: string) {
    match AfterLastColon(address)
    case None => false
    case Some(t) =>
      var port := ParseInt(t, 10);
      port.Some? && port.value in [1080, 10808, 9050, 9051, 4145]
  }

  datatype Record = Record(
    socksPort: bool, protocol: Protocol,
    latencySum: real, latencyCount: nat, checksTotal: nat, checksOk: nat, lastStatus: Status,
    inBlacklist: bool, hits: nat, supportsConnect: bool, mitmSuspect: bool, sslSupported: bool,
    hosting: bool, proxy: bool, mobile: bool, fraudCheckedTs: real,
    speedSum: real, speedCount: nat, speedFails: nat, consecutiveFails: nat,
    srEwma: real, latencyEwma: real, speedEwma: real, lastTrafficFailTs: real)
  {
    function SpeedAvg(): real {
      if speedCount > 0 then Over(speedSum, speedCount) else 0.0
    }

    function LatencyAvg(): real {
      if latencyCount > 0 then Over(latencySum, latencyCount) else 0.0
    }

    predicate HadSpeed() { speedCount > 0 }

    function EffSpeed(): real { if speedEwma >= 0.0 then speedEwma else SpeedAvg() }

    predicate DeadBySpeed() {
      if speedCount > 0 then EffSpeed() < 5.0 else speedFails > 0
    }

    predicate InGrace() { !DeadBySpeed() && HadSpeed() && consecutiveFails < GRACE_FAILS }

    predicate PoolEligible() { !inBlacklist && !DeadBySpeed() && (lastStatus.Live? || InGrace()) }

    predicate FraudFailCheck(now: real) {
      fraudCheckedTs == 0.0 || now - fraudCheckedTs > 21600.0
    }

    function FraudScore(now: real): int {
      if FraudFailCheck(now) then 100
      else
        var s := (if mobile then 20 else 0) + (if hosting then 40 else 0) + (if proxy then 70 else 0);
        if s <= 100 then s else 100
    }

    predicate EffectiveSocks() { protocol.Socks4? || protocol.Socks5? || socksPort }

    function SpeedFactor(): real {
      var sp := EffSpeed();
      if sp > 0.0 then
        var factor := MinR(1.0, sp / 150.0);
        if speedFails > 0 then Times(factor, MaxR(0.25, 1.0 - 0.35 * speedFails as real)) else factor
      else if EffectiveSocks() then 0.5
      else if speedFails > 0 then 0.0
      else if checksOk < 5 then 0.5
      else 0.0
    }

    /** The success average the score uses: the moving one once it is set, else the lifetime one. */
    function SuccessAverage(): real { Settled(srEwma, checksOk, checksTotal) }

    function EffLatency(): real { if latencyEwma >= 0.0 then latencyEwma else LatencyAvg() }

    function BasePoints(): real {
      SuccessAverage() * 40.0 + 20.0 * MaxR(0.0, 1.0 - EffLatency() / 10.0)
      + (if sslSupported then 5.0 else 0.0) + (if supportsConnect then 5.0 else 0.0)
      + (if EffectiveSocks() then 5.0 else 0.0)
    }

    function FraudFactor(now: real): real {
      1.0 - 0.01 * (FraudScore(now) - 30) as real
    }

    function ModifierFactor(now: real): real {
      Times(MaxR(0.10, MinR(1.35, FraudFactor(now))), Penalties())
    }

    function Penalties(): real {
      Times(if mitmSuspect then 0.5 else 1.0, if hits > 0 then MaxR(0.25, Decay(hits)) else 1.0)
    }

    function GraceRatio(): real { MaxR(0.0, 1.0 - consecutiveFails as real / 50.0) }

    function Points(now: real): real { Product(BasePoints(), SpeedFactor(), ModifierFactor(now)) }

    function Score(now: real): real {
      if checksTotal == 0 || inBlacklist then 0.0
      else if !lastStatus.Live? then
        if !InGrace() then 0.0
        else MaxR(0.0, MinR(100.0, Times(Points(now) * 0.3, GraceRatio())))
      else MaxR(0.0, MinR(100.0, Points(now)))
    }
  }

  // ---- Events ----

  datatype Flags = Flags(hosting: bool, proxy: bool, mobile: bool)

  /** `egress`: flags of the exit address, when captured. `risk`: the external risk reading, when it
      is an integer. `hits`: the blacklist lookup, made once the exit address is known. */
  datatype Probe = Probe(
    latency: real, speed: real, supportsConnect: bool, sslSupported: bool, mitmSuspect: bool,
    egress: Option<Flags>, risk: Option<int>)

  datatype Event =
    | CheckOk(now: real, probe: Probe, hits: Option<nat>)
    | CheckFailed(now: real, hits: Option<nat>)
    | TrafficFail(now: real)

  function Average(prev: real, x: real): real {
    if prev < 0.0 then x else 0.75 * prev + 0.25 * x
  }

  /** The average that the next outcome is mixed into. */
  function Seed(average: real, ok: nat, total: nat, outcome: bool): real {
    if average >= 0.0 then average
    else if total > 0 then Over(ok as real, total)
    else if outcome then 1.0 else 0.0
  }

  function NextAverage(average: real, ok: nat, total: nat, outcome: bool): real {
    0.75 * Seed(average, ok, total, outcome) + (if outcome then 0.25 else 0.0)
  }

  predicate Counts(r: Record, now: real) { now - r.lastTrafficFailTs >= 5.0 }

  function FreshRisk(p: Probe): bool { p.risk.Some? && 0 <= p.risk.value <= 100 }

  function WithSpeed(r: Record, speed: real): Record {
    r.(speedSum := if speed > 0.0 then r.speedSum + speed else r.speedSum,
       speedCount := if speed > 0.0 then r.speedCount + 1 else r.speedCount,
       speedFails := if speed > 0.0 then 0 else r.speedFails + 1,
       speedEwma := if speed > 0.0 then Average(r.speedEwma, speed) else r.speedEwma)
  }

  function WithChannel(r: Record, p: Probe): Record {
    r.(supportsConnect := p.supportsConnect, sslSupported := p.sslSupported, mitmSuspect := p.mitmSuspect,
       protocol := if p.sslSupported && !r.protocol.Socks5? && !r.protocol.Socks4? then Https else r.protocol)
  }

  /** The external reading refreshes the age of the flags and nothing else that is scored. */
  function WithFlags(r: Record, now: real, egress: Option<Flags>, aged: bool): Record {
    r.(hosting := if egress.Some? then egress.value.hosting else r.hosting,
       proxy := if egress.Some? then egress.value.proxy else r.proxy,
       mobile := if egress.Some? then egress.value.mobile else r.mobile,
       fraudCheckedTs := if egress.Some? || aged then now else r.fraudCheckedTs)
  }

  function Timed(r: Record, latency: real): Record {
    r.(latencySum := r.latencySum + latency, latencyCount := r.latencyCount + 1,
       latencyEwma := Average(r.latencyEwma, latency))
  }

  function Answered(r: Record, latency: real): Record {
    Timed(r.(checksOk := r.checksOk + 1, lastStatus := Live, consecutiveFails := 0), latency)
  }

  function Applied(r: Record, now: real, p: Probe): Record {
    WithFlags(WithChannel(WithSpeed(Answered(r, p.latency), p.speed), p), now, p.egress, FreshRisk(p))
  }

  function Reliable(r: Record, outcome: bool): Record {
    r.(srEwma := NextAverage(r.srEwma, r.checksOk, r.checksTotal, outcome))
  }

  function Noted(r: Record, hits: Option<nat>): Record {
    r.(hits := Looked(r.hits, hits))
  }

  function Passed(r: Record, now: real, p: Probe, hits: Option<nat>): Record {
    Noted(Reliable(Applied(r.(checksTotal := r.checksTotal + 1), now, p), true), hits)
  }

  function Looked(known: nat, found: Option<nat>): nat {
    if found.Some? then found.value else known
  }

  function Failing(r: Record): Record {
    r.(checksTotal := r.checksTotal + 1, lastStatus := Failed, consecutiveFails := r.consecutiveFails + 1)
  }

  function Missed(r: Record, hits: Option<nat>): Record {
    Noted(Reliable(Failing(r), false), hits)
  }

  function Dropped(r: Record, now: real): Record {
    r.(lastStatus := Failed,
       lastTrafficFailTs := if Counts(r, now) then now else r.lastTrafficFailTs,
       consecutiveFails := if Counts(r, now) then r.consecutiveFails + 1 else r.consecutiveFails,
       srEwma := if Counts(r, now) then NextAverage(r.srEwma, r.checksOk, r.checksTotal, false) else r.srEwma)
  }

  function Step(r: Record, e: Event): Record {
    match e
    case CheckOk(now, probe, hits) => Passed(r, now, probe, hits)
    case CheckFailed(now, hits) => Missed(r, hits)
    case TrafficFail(now) => Dropped(r, now)
  }

  function Replay(r: Record, events: seq<Event>): Record
    decreases |events|
  {
    if events == [] then r else Replay(Step(r, events[0]), events[1..])
  }

  /** A rating as it is created for a new address. */
  function Created(address: string, protocol: Protocol): Record {
    Record(SocksPort(address), protocol, 0.0, 0, 0, 0, Untested, false, 0, false, false, false,
           false, false, false, 0.0, 0.0, 0, 0, 0, -1.0, -1.0, -1.0, 0.0)
  }

  // ---- What every reachable rating keeps ----

  predicate Sane(r: Record) {
    && r.checksOk <= r.checksTotal
    && r.speedCount <= r.checksOk
    && (r.srEwma == -1.0 || 0.0 <= r.srEwma <= 1.0)
    && r.latencySum >= 0.0
    && r.speedSum >= 0.0
  }

  /** The clock of a latency measurement does not run backwards; speeds may be anything. */
  predicate Measured(e: Event) {
    e.CheckOk? ==> e.probe.latency >= 0.0
  }

  lemma QuotientBound(a: nat, b: nat)
    requires a <= b && b > 0
    ensures 0.0 <= Over(a as real, b) <= 1.0
  {
    var q := a as real / b as real;
    assert q * b as real == a as real;
  }

  lemma RateBound(r: Record)
    requires Sane(r)
    ensures 0.0 <= r.SuccessAverage() <= 1.0
  {
    if r.checksTotal > 0 {
      QuotientBound(r.checksOk, r.checksTotal);
    }
  }

  lemma NextAverageBound(average: real, ok: nat, total: nat, outcome: bool)
    requires ok <= total && (average == -1.0 || 0.0 <= average <= 1.0)
    ensures 0.0 <= NextAverage(average, ok, total, outcome) <= 1.0
  {
    if total > 0 {
      QuotientBound(ok, total);
    }
  }

  lemma AppliedFrame(r: Record, now: real, p: Probe)
    ensures var a := Applied(r, now, p);
            && a.checksOk == r.checksOk + 1 && a.latencySum == r.latencySum + p.latency
            && a.speedCount == r.speedCount + (if p.speed > 0.0 then 1 else 0)
            && a.speedSum == r.speedSum + (if p.speed > 0.0 then p.speed else 0.0)
            && a.lastTrafficFailTs == r.lastTrafficFailTs && a.srEwma == r.srEwma && a.checksTotal == r.checksTotal
            && a.latencyEwma == Average(r.latencyEwma, p.latency)
  {
    var x := Answered(r, p.latency);
    var y := WithSpeed(x, p.speed);
    var z := WithChannel(y, p);
    assert z.checksOk == r.checksOk + 1 && z.latencySum == r.latencySum + p.latency;
  }

  lemma PassedKeeps(r: Record, now: real, p: Probe, hits: Option<nat>)
    requires Sane(r) && p.latency >= 0.0
    ensures Sane(Passed(r, now, p, hits))
    ensures Passed(r, now, p, hits).lastTrafficFailTs == r.lastTrafficFailTs
  {
    NextAverageBound(r.srEwma, r.checksOk + 1, r.checksTotal + 1, true);
    AppliedFrame(r.(checksTotal := r.checksTotal + 1), now, p);
  }

  lemma MissedKeeps(r: Record, hits: Option<nat>)
    requires Sane(r)
    ensures Sane(Missed(r, hits))
  {
    NextAverageBound(r.srEwma, r.checksOk, r.checksTotal + 1, false);
  }

  lemma DroppedKeeps(r: Record, now: real)
    requires Sane(r)
    ensures Sane(Dropped(r, now))
  {
    NextAverageBound(r.srEwma, r.checksOk, r.checksTotal, false);
  }

  lemma StepKeeps(r: Record, e: Event)
    requires Sane(r) && Measured(e)
    ensures Sane(Step(r, e))
  {
    match e
    case CheckOk(now, probe, hits) => PassedKeeps(r, now, probe, hits);
    case CheckFailed(now, hits) => MissedKeeps(r, hits);
    case TrafficFail(now) => DroppedKeeps(r, now);
  }

  lemma {:induction false} ReplayKeeps(r: Record, events: seq<Event>)
    requires Sane(r) && forall e <- events :: Measured(e)
    ensures Sane(Replay(r, events))
    decreases |events|
  {
    if events != [] {
      StepKeeps(r, events[0]);
      ReplayKeeps(Step(r, events[0]), events[1..]);
    }
  }

  // ---- Bounds on the factors ----

  lemma MulMono(a: real, b: real, c: real, d: real)
    requires 0.0 <= a <= b && 0.0 <= c <= d
    ensures 0.0 <= Times(a, c) <= Times(b, d)
  {
    assert a * c <= b * c <= b * d;
  }

  lemma ProductMono(b: real, s: real, m: real, b': real, s': real, m': real)
    requires 0.0 <= b <= b' && 0.0 <= s <= s' && 0.0 <= m <= m'
    ensures 0.0 <= Product(b, s, m) <= Product(b', s', m')
  {
    MulMono(b, b', s, s');
    MulMono(Times(b, s), Times(b', s'), m, m');
  }

  lemma OverSign(a: real, n: nat)
    requires n > 0 && a >= 0.0
    ensures Over(a, n) >= 0.0
  {
  }

  lemma BaseBound(r: Record)
    requires Sane(r)
    ensures 0.0 <= r.BasePoints() <= 75.0
  {
    RateBound(r);
    if r.latencyCount > 0 {
      OverSign(r.latencySum, r.latencyCount);
    }
  }

  lemma SpeedBound(r: Record)
    ensures 0.0 <= r.SpeedFactor() <= 1.0
  {
    var sp := r.EffSpeed();
    if sp > 0.0 {
      MulMono(MinR(1.0, sp / 150.0), 1.0, MaxR(0.25, 1.0 - 0.35 * r.speedFails as real), 1.0);
    }
  }

  lemma {:induction false} DecayBound(n: nat)
    ensures 0.0 < Decay(n) <= 1.0
  {
    if n > 0 {
      DecayBound(n - 1);
    }
  }

  lemma ModifierBound(r: Record, now: real)
    ensures 0.0 <= r.Penalties() <= 1.0
    ensures 0.3 <= r.FraudFactor(now) <= 1.3
    ensures r.ModifierFactor(now) == Times(r.FraudFactor(now), r.Penalties())
    ensures 0.0 <= r.ModifierFactor(now) <= 1.3
  {
    DecayBound(r.hits);
    MulMono(if r.mitmSuspect then 0.5 else 1.0, 1.0, if r.hits > 0 then MaxR(0.25, Decay(r.hits)) else 1.0, 1.0);
    MulMono(r.FraudFactor(now), 1.3, r.Penalties(), 1.0);
  }

  /** The three factors and, off live status, the grace discount, with no clamp. */
  function Unclamped(r: Record, now: real): real {
    if r.checksTotal == 0 || r.inBlacklist then 0.0
    else if r.lastStatus.Live? then r.Points(now)
    else if r.InGrace() then Times(r.Points(now) * 0.3, r.GraceRatio())
    else 0.0
  }

  lemma PointsBound(r: Record, now: real)
    requires Sane(r)
    ensures 0.0 <= r.Points(now) <= 97.5
  {
    BaseBound(r);
    SpeedBound(r);
    ModifierBound(r, now);
    ProductMono(r.BasePoints(), r.SpeedFactor(), r.ModifierFactor(now), 75.0, 1.0, 1.3);
  }

  lemma DiscountBound(points: real, r: Record)
    requires 0.0 <= points
    ensures 0.0 <= r.GraceRatio() <= 1.0
    ensures 0.0 <= Times(points * 0.3, r.GraceRatio()) <= points * 0.3
  {
    MulMono(points * 0.3, points * 0.3, r.GraceRatio(), 1.0);
  }

  lemma ScoreIsProduct(r: Record, now: real)
    requires Sane(r)
    ensures r.Score(now) == Unclamped(r, now) && 0.0 <= r.Score(now) <= 97.5
  {
    PointsBound(r, now);
    DiscountBound(r.Points(now), r);
  }

  /** Over every history of checks and traffic failures the clamps at 0 and 100 and the fraud clamps
      never bind. */
  lemma ScoreBound(address: string, protocol: Protocol, events: seq<Event>, now: real)
    requires forall e <- events :: Measured(e)
    ensures var r := Replay(Created(address, protocol), events);
            && r.checksOk <= r.checksTotal && (r.srEwma == -1.0 || 0.0 <= r.srEwma <= 1.0)
            && 0.0 <= r.BasePoints() <= 75.0 && 0.0 <= r.SpeedFactor() <= 1.0
            && 0.10 < r.FraudFactor(now) < 1.35 && 0.0 <= r.ModifierFactor(now) <= 1.3
            && r.Score(now) == Unclamped(r, now) && 0.0 <= r.Score(now) <= 97.5
  {
    var r := Replay(Created(address, protocol), events);
    ReplayKeeps(Created(address, protocol), events);
    BaseBound(r);
    SpeedBound(r);
    ModifierBound(r, now);
    ScoreIsProduct(r, now);
  }

  predicate Perfect(r: Record) {
    && r.checksTotal > 0 && !r.inBlacklist && r.lastStatus.Live? && r.srEwma == 1.0 && r.latencyEwma == 0.0
    && r.sslSupported && r.supportsConnect && r.protocol.Socks5?
    && r.speedEwma == 150.0 && r.speedFails == 0
    && !r.mitmSuspect && r.hits == 0 && !r.mobile && !r.hosting && !r.proxy && r.fraudCheckedTs == 1.0
  }

  lemma PerfectScore(r: Record)
    requires Perfect(r)
    ensures r.Score(1.0) == 97.5
  {
    assert r.BasePoints() == 75.0;
    assert r.SpeedFactor() == 1.0;
    assert r.ModifierFactor(1.0) == 1.3;
  }

  /** The bound is reached by one perfect first check of a clean residential SOCKS proxy. */
  lemma BoundIsReached(address: string)
    ensures
      var check := CheckOk(1.0, Probe(0.0, 150.0, true, true, false, Some(Flags(false, false, false)), None), None);
      Replay(Created(address, Socks5), [check]).Score(1.0) == 97.5
  {
    var probe := Probe(0.0, 150.0, true, true, false, Some(Flags(false, false, false)), None);
    var check := CheckOk(1.0, probe, None);
    var c := Created(address, Socks5);
    var r := Step(c, check);
    assert Replay(c, [check]) == Replay(r, []) == r;
    AppliedFrame(c.(checksTotal := 1), 1.0, probe);
    assert Over(1.0, 1) == 1.0;
    assert NextAverage(-1.0, 1, 1, true) == 1.0;
    assert Perfect(r);
    PerfectScore(r);
  }

  // ---- What the factors mean ----

  /** The speed factor is whole exactly from 150 KB/s without speed failures, and gone exactly for a
      plain proxy without throughput that failed a measurement or passed five checks. */
  lemma SpeedFactorMeaning(r: Record)
    ensures r.SpeedFactor() == 1.0 <==> r.EffSpeed() >= 150.0 && r.speedFails == 0
    ensures r.SpeedFactor() == 0.0 <==>
              (r.EffSpeed() <= 0.0 && !r.EffectiveSocks() && (r.speedFails > 0 || r.checksOk >= 5))
    ensures r.EffSpeed() > 0.0 ==> 150.0 * r.SpeedFactor() <= r.EffSpeed()
  {
    var sp := r.EffSpeed();
    if sp > 0.0 {
      ShrinkingFactor(MinR(1.0, sp / 150.0), MaxR(0.25, 1.0 - 0.35 * r.speedFails as real));
      assert r.speedFails > 0 ==> MaxR(0.25, 1.0 - 0.35 * r.speedFails as real) < 1.0;
    }
  }

  lemma ShrinkingFactor(a: real, b: real)
    requires 0.0 < a <= 1.0 && 0.0 < b
    ensures 0.0 < Times(a, b)
    ensures b <= 1.0 ==> Times(a, b) <= a
    ensures b < 1.0 ==> Times(a, b) < a
  {
    if b < 1.0 {
      assert a * b < a * 1.0;
    }
  }

  /** The documented multipliers: 1.3 for a clean exit, 1.1 mobile, 0.9 hosting, 0.6 proxy, and the worst
      case 0.3 without a fresh reading. */
  lemma FraudTable(r: Record, now: real)
    ensures r.FraudFailCheck(now) <==> r.fraudCheckedTs == 0.0 || now > r.fraudCheckedTs + 21600.0
    ensures r.FraudFailCheck(now) ==> r.FraudFactor(now) == 0.3
    ensures !r.FraudFailCheck(now) ==>
      match (r.mobile, r.hosting, r.proxy)
      case (false, false, false) => r.FraudFactor(now) == 1.3
      case (true, false, false) => r.FraudFactor(now) == 1.1
      case (false, true, false) => r.FraudFactor(now) == 0.9
      case (true, true, false) => r.FraudFactor(now) == 0.7
      case (false, false, true) => r.FraudFactor(now) == 0.6
      case (true, false, true) => r.FraudFactor(now) == 0.4
      case (_, true, true) => r.FraudFactor(now) == 0.3
  {
  }

  /** The three capabilities that add to the base points. */
  function Capabilities(r: Record): nat {
    (if r.sslSupported then 1 else 0) + (if r.supportsConnect then 1 else 0) + (if r.EffectiveSocks() then 1 else 0)
  }

  /** What sets any two records apart: forty points for the success averages, two for every second of
      latency up to ten, five for every capability. */
  lemma BaseWeights(r: Record, s: Record)
    ensures r.BasePoints() - s.BasePoints() ==
      40.0 * (r.SuccessAverage() - s.SuccessAverage())
      + 2.0 * (MinR(s.EffLatency(), 10.0) - MinR(r.EffLatency(), 10.0))
      + 5.0 * (Capabilities(r) - Capabilities(s)) as real
  {
  }

  // ---- Moving averages ----

  function Averaged(prev: real, xs: seq<real>): real
    decreases |xs|
  {
    if xs == [] then prev else Averaged(Average(prev, xs[0]), xs[1..])
  }

  function LatenciesOf(events: seq<Event>): seq<real> {
    if events == [] then []
    else (if events[0].CheckOk? then [events[0].probe.latency] else []) + LatenciesOf(events[1..])
  }

  /** Over any history the latency average is that of the successful checks, in their order. */
  lemma {:induction false} LatencyHistory(r: Record, events: seq<Event>)
    ensures Replay(r, events).latencyEwma == Averaged(r.latencyEwma, LatenciesOf(events))
    decreases |events|
  {
    if events != [] {
      var e := events[0];
      LatencyStep(r, e);
      LatencyHistory(Step(r, e), events[1..]);
      if e.CheckOk? {
        assert ([e.probe.latency] + LatenciesOf(events[1..]))[1..] == LatenciesOf(events[1..]);
      } else {
        assert [] + LatenciesOf(events[1..]) == LatenciesOf(events[1..]);
      }
    }
  }

  lemma LatencyStep(r: Record, e: Event)
    ensures Step(r, e).latencyEwma == if e.CheckOk? then Average(r.latencyEwma, e.probe.latency) else r.latencyEwma
  {
    match e
    case CheckOk(now, probe, hits) => AppliedFrame(r.(checksTotal := r.checksTotal + 1), now, probe);
    case CheckFailed(now, hits) =>
    case TrafficFail(now) =>
  }

  function Same(x: real, n: nat): seq<real> {
    if n == 0 then [] else [x] + Same(x, n - 1)
  }

  /** After n equal measurements 0.75^n of the old distance is left. */
  lemma {:induction false} AverageForgets(prev: real, x: real, n: nat)
    requires prev >= 0.0 && x >= 0.0
    ensures Averaged(prev, Same(x, n)) - x == Times(Decay(n), prev - x)
    decreases n
  {
    if n == 0 {
      assert Times(1.0, prev - x) == prev - x;
    } else {
      assert Same(x, n)[1..] == Same(x, n - 1);
      AverageForgets(0.75 * prev + 0.25 * x, x, n - 1);
      DecayStep(n - 1, prev - x);
    }
  }

  /** The first measurement counts in full, and no average leaves the range of its measurements. */
  lemma {:induction false} AverageBetween(prev: real, xs: seq<real>, lo: real, hi: real)
    requires xs != [] && 0.0 <= lo && forall x <- xs :: lo <= x <= hi
    requires prev < 0.0 || lo <= prev <= hi
    ensures lo <= Averaged(prev, xs) <= hi
    ensures prev < 0.0 ==> Averaged(prev, [xs[0]]) == xs[0]
    decreases |xs|
  {
    assert xs[0] in xs;
    assert [xs[0]][1..] == [];
    var next := Average(prev, xs[0]);
    if |xs| > 1 {
      assert forall x <- xs[1..] :: x in xs;
      AverageBetween(next, xs[1..], lo, hi);
    } else {
      assert xs[1..] == [];
    }
  }

  // ---- Decay ----

  predicate Failure(e: Event, hits: nat) {
    && !e.CheckOk?
    && (e.CheckFailed? ==> e.hits.None? || e.hits.value == hits)
  }

  /** Failures only, with the blacklist hits held at `hits`, at times from `now` onwards in order. */
  predicate Failures(events: seq<Event>, hits: nat, now: real)
    decreases |events|
  {
    events != [] ==>
      Failure(events[0], hits) && now <= events[0].now && Failures(events[1..], hits, events[0].now)
  }

  function LastTime(events: seq<Event>, now: real): real {
    if events == [] then now else events[|events| - 1].now
  }

  predicate CountedFailure(r: Record, e: Event) {
    e.CheckFailed? || (e.TrafficFail? && Counts(r, e.now))
  }

  function CountedFailures(r: Record, events: seq<Event>): nat
    decreases |events|
  {
    if events == [] then 0
    else (if CountedFailure(r, events[0]) then 1 else 0) + CountedFailures(Step(r, events[0]), events[1..])
  }

  lemma NextAverageFalls(average: real, ok: nat, total: nat, more: nat)
    requires ok <= total && (average == -1.0 || 0.0 <= average <= 1.0) && total <= more <= total + 1
    ensures NextAverage(average, ok, more, false) <= Settled(average, ok, total)
  {
    if total > 0 {
      QuotientBound(ok, total);
      QuotientFalls(ok, total);
      QuotientBound(ok, total + 1);
    } else {
      QuotientBound(0, 1);
    }
  }

  /** A record whose average comes out of one more failure. */
  lemma FallsTo(r: Record, s: Record, total: nat)
    requires Sane(r) && r.checksTotal <= total <= r.checksTotal + 1
    requires s.srEwma == NextAverage(r.srEwma, r.checksOk, total, false)
    ensures s.SuccessAverage() <= r.SuccessAverage()
  {
    NextAverageFalls(r.srEwma, r.checksOk, r.checksTotal, total);
    NextAverageBound(r.srEwma, r.checksOk, total, false);
    SettledSet(s.srEwma, s.checksOk, s.checksTotal);
  }

  lemma SettledSet(average: real, ok: nat, total: nat)
    requires average >= 0.0
    ensures Settled(average, ok, total) == average
  {
  }

  lemma MissedAverage(r: Record, hits: Option<nat>)
    ensures Missed(r, hits).srEwma == NextAverage(r.srEwma, r.checksOk, r.checksTotal + 1, false)
  {
  }

  lemma MissedFalls(r: Record, hits: Option<nat>)
    requires Sane(r)
    ensures Missed(r, hits).SuccessAverage() <= r.SuccessAverage()
  {
    MissedAverage(r, hits);
    FallsTo(r, Missed(r, hits), r.checksTotal + 1);
  }

  lemma DroppedFalls(r: Record, now: real)
    requires Sane(r)
    ensures Dropped(r, now).SuccessAverage() <= r.SuccessAverage()
  {
    if Counts(r, now) {
      FallsTo(r, Dropped(r, now), r.checksTotal);
    }
  }

  lemma AverageFalls(r: Record, e: Event)
    requires Sane(r) && Failure(e, r.hits)
    ensures Step(r, e).SuccessAverage() <= r.SuccessAverage()
  {
    match e
    case CheckFailed(now, hits) => MissedFalls(r, hits);
    case TrafficFail(now) => DroppedFalls(r, now);
  }

  lemma QuotientFalls(a: nat, b: nat)
    requires b > 0
    ensures Over(a as real, b + 1) <= Over(a as real, b)
  {
    var q, p, n := a as real / b as real, a as real / (b + 1) as real, b as real;
    assert q * n == p * (n + 1.0) && p >= 0.0;
    QuotientOrder(p, q, n);
  }

  lemma QuotientOrder(p: real, q: real, n: real)
    requires n > 0.0 && q * n == p * (n + 1.0) && p >= 0.0
    ensures p <= q
  {
    assert (q - p) * n == p;
  }

  lemma ModifierFalls(r: Record, s: Record, now: real, later: real)
    requires now <= later && s.Penalties() == r.Penalties()
    requires (s.mobile, s.hosting, s.proxy, s.fraudCheckedTs) == (r.mobile, r.hosting, r.proxy, r.fraudCheckedTs)
    ensures s.ModifierFactor(later) <= r.ModifierFactor(now)
  {
    ModifierBound(r, now);
    ModifierBound(s, later);
    assert r.FraudScore(now) <= s.FraudScore(later);
    MulMono(s.FraudFactor(later), r.FraudFactor(now), s.Penalties(), r.Penalties());
  }

  /** What a failure leaves alone, and what it does to the streak. */
  predicate FailedFrom(r: Record, s: Record, counted: bool) {
    && s.SpeedFactor() == r.SpeedFactor() && s.Penalties() == r.Penalties()
    && (s.mobile, s.hosting, s.proxy, s.fraudCheckedTs) == (r.mobile, r.hosting, r.proxy, r.fraudCheckedTs)
    && (s.DeadBySpeed() <==> r.DeadBySpeed()) && (s.HadSpeed() <==> r.HadSpeed())
    && s.inBlacklist == r.inBlacklist && s.lastStatus == Failed && s.hits == r.hits
    && s.consecutiveFails == r.consecutiveFails + (if counted then 1 else 0)
  }

  lemma SameFactors(r: Record, s: Record)
    requires s.speedEwma == r.speedEwma && s.speedSum == r.speedSum && s.speedCount == r.speedCount
    requires s.speedFails == r.speedFails && s.checksOk == r.checksOk
    requires s.protocol == r.protocol && s.socksPort == r.socksPort
    requires s.hits == r.hits && s.mitmSuspect == r.mitmSuspect
    ensures s.SpeedFactor() == r.SpeedFactor() && s.Penalties() == r.Penalties()
    ensures s.DeadBySpeed() <==> r.DeadBySpeed()
  {
    assert s.EffSpeed() == r.EffSpeed();
  }

  lemma FailureFrame(r: Record, e: Event)
    requires Failure(e, r.hits)
    ensures FailedFrom(r, Step(r, e), CountedFailure(r, e))
    ensures r.checksTotal > 0 ==> Step(r, e).checksTotal > 0
  {
    match e
    case CheckFailed(now, hits) => SameFactors(r, Missed(r, hits));
    case TrafficFail(now) => SameFactors(r, Dropped(r, now));
  }

  lemma BaseFalls(r: Record, e: Event)
    requires Sane(r) && Failure(e, r.hits)
    ensures Step(r, e).BasePoints() <= r.BasePoints()
  {
    AverageFalls(r, e);
    var s := Step(r, e);
    assert s.latencyEwma == r.latencyEwma && s.LatencyAvg() == r.LatencyAvg();
    assert s.EffectiveSocks() == r.EffectiveSocks();
    assert s.sslSupported == r.sslSupported && s.supportsConnect == r.supportsConnect;
  }

  lemma PointsFall(r: Record, e: Event, now: real, later: real)
    requires Sane(r) && Failure(e, r.hits) && now <= later
    ensures 0.0 <= Step(r, e).Points(later) <= r.Points(now)
  {
    var s := Step(r, e);
    StepKeeps(r, e);
    BaseBound(s);
    SpeedBound(s);
    ModifierBound(s, later);
    BaseFalls(r, e);
    FailureFrame(r, e);
    ModifierFalls(r, s, now, later);
    ProductMono(s.BasePoints(), s.SpeedFactor(), s.ModifierFactor(later),
                r.BasePoints(), r.SpeedFactor(), r.ModifierFactor(now));
  }

  lemma ScoreFallsOnce(r: Record, e: Event, now: real, later: real)
    requires Sane(r) && Failure(e, r.hits) && now <= later
    ensures Step(r, e).Score(later) <= r.Score(now)
  {
    var s := Step(r, e);
    StepKeeps(r, e);
    ScoreIsProduct(r, now);
    ScoreIsProduct(s, later);
    FailureFrame(r, e);
    PointsFall(r, e, now, later);
    DiscountBound(s.Points(later), s);
    DiscountBound(r.Points(now), r);
    MulMono(s.Points(later) * 0.3, r.Points(now) * 0.3, s.GraceRatio(), r.GraceRatio());
  }

  /** Along any run of failures, checks and traffic alike, the score never rises. */
  lemma {:induction false} ScoreNeverRises(r: Record, events: seq<Event>, now: real)
    requires Sane(r) && Failures(events, r.hits, now)
    ensures Replay(r, events).Score(LastTime(events, now)) <= r.Score(now)
    decreases |events|
  {
    if events != [] {
      var e := events[0];
      StepKeeps(r, e);
      FailureFrame(r, e);
      ScoreFallsOnce(r, e, now, e.now);
      ScoreNeverRises(Step(r, e), events[1..], e.now);
      assert LastTime(events, now) == LastTime(events[1..], e.now);
    }
  }

  /** A failing record scores at most 0.3 of what the same record would score if live. */
  lemma FailingRanksBelowLive(r: Record, now: real)
    requires Sane(r) && !r.lastStatus.Live?
    ensures r.Score(now) <= 0.3 * r.(lastStatus := Live).Score(now)
  {
    var live := r.(lastStatus := Live);
    ScoreIsProduct(r, now);
    ScoreIsProduct(live, now);
    assert live.BasePoints() == r.BasePoints() && live.SpeedFactor() == r.SpeedFactor();
    assert live.ModifierFactor(now) == r.ModifierFactor(now);
    PointsBound(r, now);
    DiscountBound(r.Points(now), r);
  }

  /** n counted failures multiply a set average by 0.75^n and add n to the streak. */
  lemma {:induction false} AverageDecays(r: Record, events: seq<Event>, now: real)
    requires Sane(r) && r.srEwma >= 0.0 && Failures(events, r.hits, now)
    ensures var n := CountedFailures(r, events);
            && Replay(r, events).srEwma == Times(Decay(n), r.srEwma)
            && Replay(r, events).consecutiveFails == r.consecutiveFails + n
    decreases |events|
  {
    if events == [] {
      assert Times(1.0, r.srEwma) == r.srEwma;
    } else {
      var s := Step(r, events[0]);
      StepKeeps(r, events[0]);
      FailureFrame(r, events[0]);
      AverageStep(r, events[0]);
      AverageDecays(s, events[1..], events[0].now);
      DecayStep(CountedFailures(s, events[1..]), r.srEwma);
    }
  }

  lemma AverageMissed(r: Record, hits: Option<nat>)
    requires r.srEwma >= 0.0
    ensures Missed(r, hits).srEwma == 0.75 * r.srEwma
  {
  }

  lemma AverageDropped(r: Record, now: real)
    requires r.srEwma >= 0.0
    ensures Dropped(r, now).srEwma == if Counts(r, now) then 0.75 * r.srEwma else r.srEwma
  {
  }

  lemma AverageStep(r: Record, e: Event)
    requires r.srEwma >= 0.0 && !e.CheckOk?
    ensures Step(r, e).srEwma == if CountedFailure(r, e) then 0.75 * r.srEwma else r.srEwma
  {
    match e
    case CheckFailed(now, hits) => AverageMissed(r, hits);
    case TrafficFail(now) => AverageDropped(r, now);
  }

  lemma DecayStep(n: nat, x: real)
    ensures Times(Decay(n), 0.75 * x) == Times(Decay(n + 1), x)
  {
  }

  /** The first failed check of an unset average starts from the lifetime rate, that check included. */
  lemma AverageSeed(r: Record, now: real, hits: Option<nat>)
    requires Sane(r)
    ensures Step(r, CheckFailed(now, hits)).srEwma ==
      0.75 * (if r.srEwma >= 0.0 then r.srEwma else Over(r.checksOk as real, r.checksTotal + 1))
  {
  }

  lemma {:induction false} FailuresFrame(r: Record, events: seq<Event>, now: real)
    requires Failures(events, r.hits, now)
    ensures var s := Replay(r, events);
            && (s.DeadBySpeed() <==> r.DeadBySpeed()) && (s.HadSpeed() <==> r.HadSpeed())
            && s.inBlacklist == r.inBlacklist
            && s.lastStatus == (if events == [] then r.lastStatus else Failed)
            && s.consecutiveFails == r.consecutiveFails + CountedFailures(r, events)
    decreases |events|
  {
    if events != [] {
      FailureFrame(r, events[0]);
      FailuresFrame(Step(r, events[0]), events[1..], events[0].now);
    }
  }

  /** Pool eligibility survives a run of failures exactly when the proxy has proven its speed, is not
      excluded, and the streak stays below fifty; without eligibility there is no score either. */
  lemma GoneAtFifty(r: Record, events: seq<Event>, now: real, later: real)
    requires Failures(events, r.hits, now) && events != []
    ensures Replay(r, events).PoolEligible() <==>
              (&& !r.inBlacklist && !r.DeadBySpeed() && r.HadSpeed()
               && r.consecutiveFails + CountedFailures(r, events) < GRACE_FAILS)
    ensures !Replay(r, events).PoolEligible() ==> Replay(r, events).Score(later) == 0.0
  {
    FailuresFrame(r, events, now);
  }

  // ---- The throttle ----

  /** Traffic failures counted at times within the window. */
  function CountedIn(r: Record, events: seq<Event>, t0: real, t1: real): nat
    decreases |events|
  {
    if events == [] then 0
    else
      (if events[0].TrafficFail? && Counts(r, events[0].now) && t0 <= events[0].now <= t1 then 1 else 0)
      + CountedIn(Step(r, events[0]), events[1..], t0, t1)
  }

  /** After a counted failure the next one counts five seconds later at the earliest, whatever the
      clock does in between. */
  lemma {:induction false} CountedAfter(r: Record, events: seq<Event>, t0: real, t1: real)
    ensures 5.0 * CountedIn(r, events, t0, t1) as real <= MaxR(0.0, t1 - r.lastTrafficFailTs)
    decreases |events|
  {
    if events != [] {
      LastCounted(r, events[0]);
      CountedAfter(Step(r, events[0]), events[1..], t0, t1);
    }
  }

  lemma LastCounted(r: Record, e: Event)
    ensures Step(r, e).lastTrafficFailTs == if e.TrafficFail? && Counts(r, e.now) then e.now else r.lastTrafficFailTs
  {
    match e
    case CheckOk(now, probe, hits) => AppliedFrame(r.(checksTotal := r.checksTotal + 1), now, probe);
    case CheckFailed(now, hits) =>
    case TrafficFail(now) =>
  }

  lemma {:induction false} CountedGap(r: Record, events: seq<Event>, t0: real, t1: real)
    ensures 5.0 * CountedIn(r, events, t0, t1) as real <= MaxR(0.0, t1 - t0 + 5.0)
    decreases |events|
  {
    if events != [] {
      CountedGap(Step(r, events[0]), events[1..], t0, t1);
      CountedAfter(Step(r, events[0]), events[1..], t0, t1);
    }
  }

  /** In any history, at most floor((t1-t0)/5)+1 traffic failures count within [t0,t1]. */
  lemma ThrottleBound(r: Record, events: seq<Event>, t0: real, t1: real)
    requires t0 <= t1
    ensures CountedIn(r, events, t0, t1) <= ((t1 - t0) / 5.0).Floor + 1
  {
    CountedGap(r, events, t0, t1);
    var n: int := CountedIn(r, events, t0, t1);
    assert n as real - 1.0 <= (t1 - t0) / 5.0;
  }

  predicate TrafficWithin(events: seq<Event>, t0: real, t1: real) {
    forall e <- events :: e.TrafficFail? && t0 <= e.now <= t1
  }

  lemma {:induction false} AllCountedIn(r: Record, events: seq<Event>, t0: real, t1: real)
    requires TrafficWithin(events, t0, t1)
    ensures var s := Replay(r, events);
            && s.consecutiveFails == r.consecutiveFails + CountedIn(r, events, t0, t1)
            && (s.DeadBySpeed() <==> r.DeadBySpeed()) && (s.HadSpeed() <==> r.HadSpeed())
            && s.inBlacklist == r.inBlacklist
    decreases |events|
  {
    if events != [] {
      assert events[0] in events;
      FailureFrame(r, events[0]);
      AllCountedIn(Step(r, events[0]), events[1..], t0, t1);
    }
  }

  /** Traffic alone cannot end the grace of a freshly successful proven proxy within 245 seconds. */
  lemma GraceOutlivesTraffic(r: Record, events: seq<Event>, t0: real, t1: real)
    requires r.consecutiveFails == 0 && r.HadSpeed() && !r.DeadBySpeed() && !r.inBlacklist
    requires TrafficWithin(events, t0, t1) && t0 <= t1 < t0 + 245.0
    ensures Replay(r, events).InGrace() && Replay(r, events).PoolEligible()
  {
    AllCountedIn(r, events, t0, t1);
    ThrottleBound(r, events, t0, t1);
    assert (t1 - t0) / 5.0 < 49.0;
  }

  /** n failures, five seconds apart. */
  function Burst(t0: real, n: nat): seq<Event>
    decreases n
  {
    if n == 0 then [] else [TrafficFail(t0)] + Burst(t0 + 5.0, n - 1)
  }

  lemma {:induction false} BurstCounts(r: Record, t0: real, n: nat)
    requires t0 - r.lastTrafficFailTs >= 5.0
    ensures Replay(r, Burst(t0, n)).consecutiveFails == r.consecutiveFails + n
    ensures TrafficWithin(Burst(t0, n), t0, t0 + 5.0 * MaxR(0.0, n as real - 1.0))
    ensures n > 0 ==> Replay(r, Burst(t0, n)).lastStatus == Failed
    decreases n
  {
    if n > 0 {
      var s := Step(r, TrafficFail(t0));
      assert Burst(t0, n)[1..] == Burst(t0 + 5.0, n - 1);
      BurstCounts(s, t0 + 5.0, n - 1);
    }
  }

  /** And 245 seconds is the exact limit: fifty failures fit into it. */
  lemma GraceEndsAt245(r: Record, t0: real)
    requires t0 - r.lastTrafficFailTs >= 5.0
    ensures TrafficWithin(Burst(t0, 50), t0, t0 + 245.0)
    ensures !Replay(r, Burst(t0, 50)).InGrace() && !Replay(r, Burst(t0, 50)).PoolEligible()
  {
    BurstCounts(r, t0, 50);
  }

  // ---- The object ----

  class ProxyRating {
    const address: string
    var protocol: Protocol
    var latencySum: real
    var latencyCount: nat
    var checksTotal: nat
    var checksOk: nat
    var lastStatus: Status
    var inBlacklist: bool
    var hits: nat
    var supportsConnect: bool
    var mitmSuspect: bool
    var sslSupported: bool
    var hosting: bool
    var proxy: bool
    var mobile: bool
    var fraudCheckedTs: real
    var speedSum: real
    var speedCount: nat
    var speedFails: nat
    var consecutiveFails: nat
    var srEwma: real
    var latencyEwma: real
    var speedEwma: real
    var lastTrafficFailTs: real

    function Fields(): Record
      reads this
    {
      Record(SocksPort(address), protocol, latencySum, latencyCount, checksTotal, checksOk, lastStatus, inBlacklist,
             hits, supportsConnect, mitmSuspect, sslSupported, hosting, proxy, mobile, fraudCheckedTs,
             speedSum, speedCount, speedFails, consecutiveFails, srEwma, latencyEwma, speedEwma, lastTrafficFailTs)
    }

    constructor (address: string, protocol: Protocol)
      ensures Fields() == Created(address, protocol)
    {
      this.address, this.protocol := address, protocol;
      latencySum, latencyCount, checksTotal, checksOk, lastStatus := 0.0, 0, 0, 0, Untested;
      inBlacklist, hits, supportsConnect, mitmSuspect, sslSupported := false, 0, false, false, false;
      hosting, proxy, mobile, fraudCheckedTs := false, false, false, 0.0;
      speedSum, speedCount, speedFails, consecutiveFails := 0.0, 0, 0, 0;
      srEwma, latencyEwma, speedEwma, lastTrafficFailTs := -1.0, -1.0, -1.0, 0.0;
    }

    method UpdateReliability(ok: bool)
      modifies this`srEwma
      ensures Fields() == Reliable(old(Fields()), ok)
    {
      var base := srEwma;
      if base < 0.0 {
        if checksTotal > 0 {
          base := Over(checksOk as real, checksTotal);
        } else {
          base := if ok then 1.0 else 0.0;
        }
      }
      srEwma := 0.75 * base + (if ok then 0.25 else 0.0);
    }

    method UpdateLatency(lat: real)
      modifies this`latencyEwma
      ensures latencyEwma == Average(old(latencyEwma), lat)
    {
      latencyEwma := if latencyEwma < 0.0 then lat else 0.75 * latencyEwma + 0.25 * lat;
    }

    method UpdateSpeed(sp: real)
      modifies this`speedEwma
      ensures speedEwma == Average(old(speedEwma), sp)
    {
      speedEwma := if speedEwma < 0.0 then sp else 0.75 * speedEwma + 0.25 * sp;
    }

    method ApplySpeed(speed: real)
      modifies this`speedSum, this`speedCount, this`speedFails, this`speedEwma
      ensures Fields() == WithSpeed(old(Fields()), speed)
    {
      if speed > 0.0 {
        speedSum := speedSum + speed;
        speedCount := speedCount + 1;
        speedFails := 0;
        UpdateSpeed(speed);
      } else {
        speedFails := speedFails + 1;
      }
    }

    method ApplyChannel(p: Probe)
      modifies this`supportsConnect, this`sslSupported, this`protocol, this`mitmSuspect
      ensures Fields() == WithChannel(old(Fields()), p)
    {
      supportsConnect := p.supportsConnect;
      sslSupported := p.sslSupported;
      if p.sslSupported && !protocol.Socks5? && !protocol.Socks4? {
        protocol := Https;
      }
      mitmSuspect := p.mitmSuspect;
    }

    method ApplyFlags(now: real, p: Probe)
      modifies this`hosting, this`proxy, this`mobile, this`fraudCheckedTs
      ensures Fields() == WithFlags(old(Fields()), now, p.egress, FreshRisk(p))
    {
      if p.egress.Some? {
        hosting := p.egress.value.hosting;
        proxy := p.egress.value.proxy;
        mobile := p.egress.value.mobile;
        fraudCheckedTs := now;
      }
      if p.risk.Some? && 0 <= p.risk.value <= 100 {
        fraudCheckedTs := now;
      }
    }

    method ApplyOkResult(now: real, p: Probe)
      modifies this
      ensures Fields() == Applied(old(Fields()), now, p)
    {
      ApplyAnswer(p.latency);
      ApplySpeed(p.speed);
      ApplyChannel(p);
      ApplyFlags(now, p);
    }

    method ApplyAnswer(latency: real)
      modifies this`checksOk, this`latencySum, this`latencyCount, this`lastStatus, this`consecutiveFails,
               this`latencyEwma
      ensures Fields() == Answered(old(Fields()), latency)
    {
      MarkLive();
      MeasureLatency(latency);
    }

    method MarkLive()
      modifies this`checksOk, this`lastStatus, this`consecutiveFails
      ensures Fields() == old(Fields()).(checksOk := old(checksOk) + 1, lastStatus := Live, consecutiveFails := 0)
    {
      checksOk := checksOk + 1;
      lastStatus := Live;
      consecutiveFails := 0;
    }

    method MeasureLatency(latency: real)
      modifies this`latencySum, this`latencyCount, this`latencyEwma
      ensures Fields() == Timed(old(Fields()), latency)
    {
      latencySum := latencySum + latency;
      latencyCount := latencyCount + 1;
      UpdateLatency(latency);
    }

    /** The blacklist lookup that follows a check of a proxy with a known exit address. */
    method NoteHits(found: Option<nat>)
      modifies this`hits
      ensures Fields() == Noted(old(Fields()), found)
    {
      if found.Some? {
        hits := found.value;
      }
    }

    method UpdateRating(e: Event)
      requires !e.TrafficFail?
      modifies this
      ensures Fields() == Step(old(Fields()), e)
      ensures hits == if e.hits.Some? then e.hits.value else old(hits)
    {
      match e
      case CheckOk(now, probe, found) =>
        RecordPass(now, probe, found);
      case CheckFailed(now, found) =>
        RecordMiss(found);
    }

    method RecordPass(now: real, probe: Probe, found: Option<nat>)
      modifies this
      ensures Fields() == Passed(old(Fields()), now, probe, found)
    {
      CountCheck();
      ApplyOkResult(now, probe);
      Settle(true, found);
    }

    method CountCheck()
      modifies this`checksTotal
      ensures Fields() == old(Fields()).(checksTotal := old(checksTotal) + 1)
    {
      checksTotal := checksTotal + 1;
    }

    method Settle(outcome: bool, found: Option<nat>)
      modifies this`srEwma, this`hits
      ensures Fields() == Noted(Reliable(old(Fields()), outcome), found)
    {
      UpdateReliability(outcome);
      NoteHits(found);
    }

    method RecordMiss(found: Option<nat>)
      modifies this
      ensures Fields() == Missed(old(Fields()), found)
    {
      MarkFailed();
      Settle(false, found);
    }

    method MarkFailed()
      modifies this`checksTotal, this`lastStatus, this`consecutiveFails
      ensures Fields() == Failing(old(Fields()))
    {
      checksTotal := checksTotal + 1;
      lastStatus := Failed;
      consecutiveFails := consecutiveFails + 1;
    }

    method RecordTrafficFail(now: real)
      modifies this
      ensures Fields() == Dropped(old(Fields()), now)
    {
      lastStatus := Failed;
      if now - lastTrafficFailTs >= 5.0 {
        lastTrafficFailTs := now;
        consecutiveFails := consecutiveFails + 1;
        UpdateReliability(false);
      }
    }
  }
}

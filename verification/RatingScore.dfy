// What the fields of a rating are worth, one by one, and who belongs to the pool.
// Models the scoring properties of hunt/models.py.

module RatingScore {
  import opened Wrappers
  import opened PyText
  import opened Rating

  // ---- Throughput and pool membership ----

  /** The moving average once there is one, else the lifetime average. */
  lemma ThroughputMeans(r: Record)
    ensures r.speedEwma >= 0.0 ==> r.EffSpeed() == r.speedEwma
    ensures r.speedEwma < 0.0 && r.speedCount > 0 ==> r.EffSpeed() * r.speedCount as real == r.speedSum
    ensures r.speedEwma < 0.0 && r.speedCount == 0 ==> r.EffSpeed() == 0.0
    ensures r.latencyEwma >= 0.0 ==> r.EffLatency() == r.latencyEwma
    ensures r.latencyEwma < 0.0 && r.latencyCount > 0 ==> r.EffLatency() * r.latencyCount as real == r.latencySum
    ensures r.latencyEwma < 0.0 && r.latencyCount == 0 ==> r.EffLatency() == 0.0
  {
  }

  /** A proxy is in the pool exactly if it is not excluded, carries at least 5 KB/s or was never
      measured, and is live or, with a speed on record, below fifty failures in a row. */
  lemma EligibleExactly(r: Record)
    ensures r.PoolEligible() <==>
      && !r.inBlacklist
      && (if r.speedCount == 0 then r.speedFails == 0 else r.EffSpeed() >= 5.0)
      && (r.lastStatus == Live || (r.speedCount >= 1 && r.consecutiveFails < 50))
  {
  }

  /** A new rating has no history: no checks, measurements, failures, flags, hits or capabilities, no
      average set and no reading of its exit; so it scores nothing and is not in the pool. */
  lemma NewRating(address: string, protocol: Protocol, now: real)
    ensures var r := Created(address, protocol);
      && r.Score(now) == 0.0 && !r.PoolEligible() && r.FraudFailCheck(now) && !r.inBlacklist
      && r.protocol == protocol && r.socksPort == SocksPort(address) && r.lastStatus == Untested
      && r.checksTotal + r.checksOk + r.latencyCount + r.speedCount + r.speedFails + r.consecutiveFails + r.hits == 0
      && r.latencySum == 0.0 && r.speedSum == 0.0 && r.lastTrafficFailTs == 0.0
      && r.srEwma < 0.0 && r.latencyEwma < 0.0 && r.speedEwma < 0.0 && Sane(r)
      && !(r.supportsConnect || r.sslSupported || r.mitmSuspect || r.hosting || r.proxy || r.mobile)
  {
  }

  // ---- What changes the score, and by how much ----

  predicate Scored(r: Record) {
    Sane(r) && r.checksTotal > 0 && !r.inBlacklist
  }

  lemma PointsOf(r: Record, now: real)
    requires Scored(r)
    ensures r.lastStatus.Live? ==> r.Score(now) == r.Points(now)
    ensures !r.lastStatus.Live? && r.InGrace() ==> r.Score(now) == Times(r.Points(now) * 0.3, r.GraceRatio())
    ensures !r.lastStatus.Live? && !r.InGrace() ==> r.Score(now) == 0.0
  {
    ScoreIsProduct(r, now);
  }

  /** A proxy that fails keeps three tenths of its live score, less a fiftieth of that for every failure
      in a row, as long as it belongs to the pool, and nothing otherwise. */
  lemma FailingScoreExactly(r: Record, now: real)
    requires Scored(r) && !r.lastStatus.Live?
    ensures r.Score(now) ==
      if r.PoolEligible()
      then Times(0.3 * r.(lastStatus := Live).Score(now), (50 - r.consecutiveFails) as real / 50.0) else 0.0
  {
    var live := r.(lastStatus := Live);
    PointsOf(r, now);
    PointsOf(live, now);
    assert live.BasePoints() == r.BasePoints() && live.SpeedFactor() == r.SpeedFactor();
    assert live.ModifierFactor(now) == r.ModifierFactor(now);
    if r.PoolEligible() {
      assert r.GraceRatio() == (50 - r.consecutiveFails) as real / 50.0;
    }
  }

  /** Failed speed measurements since the last good one leave 65, 30 and then 25 percent of the factor. */
  lemma SpeedFailsCost(r: Record)
    requires r.EffSpeed() > 0.0
    ensures r.SpeedFactor() == Times(
      r.(speedFails := 0).SpeedFactor(),
      match r.speedFails case 0 => 1.0 case 1 => 0.65 case 2 => 0.3 case _ => 0.25)
    ensures r.(speedFails := 0).SpeedFactor() == if r.EffSpeed() >= 150.0 then 1.0 else r.EffSpeed() / 150.0
  {
    var whole := r.(speedFails := 0);
    assert whole.EffSpeed() == r.EffSpeed();
    var f := whole.SpeedFactor();
    assert Times(f, 1.0) == f;
  }

  /** Without a throughput a SOCKS proxy counts half, and so does any other before its fifth success
      unless a measurement failed; the rest counts nothing. */
  lemma UnmeasuredFactor(r: Record)
    requires r.EffSpeed() <= 0.0
    ensures r.SpeedFactor() ==
      if r.protocol == Socks4 || r.protocol == Socks5 || r.socksPort || (r.speedFails == 0 && r.checksOk <= 4)
      then 0.5 else 0.0
  {
  }

  /** A suspected interception halves the score. */
  lemma MitmCost(r: Record, now: real)
    requires Scored(r) && r.lastStatus.Live? && r.mitmSuspect
    ensures r.Score(now) == Times(0.5, r.(mitmSuspect := false).Score(now))
  {
    var clean := r.(mitmSuspect := false);
    PointsOf(r, now);
    PointsOf(clean, now);
    ModifierBound(r, now);
    ModifierBound(clean, now);
    assert clean.BasePoints() == r.BasePoints() && clean.SpeedFactor() == r.SpeedFactor();
    assert clean.FraudFactor(now) == r.FraudFactor(now);
    var f := if r.hits > 0 then MaxR(0.25, Decay(r.hits)) else 1.0;
    assert clean.Penalties() == Times(1.0, f) == f;
    assert r.Penalties() == Times(0.5, f) == Times(f, 0.5);
    Regroup(r.BasePoints(), r.SpeedFactor(), r.FraudFactor(now), f, 0.5);
  }

  /** A live proxy with hits scores 0.75 per hit, but at least a quarter, of what it would score without. */
  lemma HitsCost(r: Record, now: real)
    requires Scored(r) && r.lastStatus.Live? && r.hits > 0
    ensures r.Score(now) == Times(MaxR(0.25, Decay(r.hits)), r.(hits := 0).Score(now))
  {
    var clean := r.(hits := 0);
    ScoreIsProduct(r, now);
    ScoreIsProduct(clean, now);
    ModifierBound(r, now);
    ModifierBound(clean, now);
    SameWithoutHits(r, clean, now);
    var m, f := if r.mitmSuspect then 0.5 else 1.0, MaxR(0.25, Decay(r.hits));
    assert clean.Penalties() == Times(m, 1.0) == m;
    Regroup(r.BasePoints(), r.SpeedFactor(), r.FraudFactor(now), m, f);
  }

  lemma SameWithoutHits(r: Record, clean: Record, now: real)
    requires clean == r.(hits := 0)
    ensures clean.BasePoints() == r.BasePoints() && clean.SpeedFactor() == r.SpeedFactor()
    ensures clean.FraudFactor(now) == r.FraudFactor(now)
  {
  }

  lemma Regroup(b: real, s: real, g: real, m: real, f: real)
    ensures Product(b, s, Times(g, Times(m, f))) == Times(f, Product(b, s, Times(g, m)))
  {
  }

  // ---- Ports ----

  lemma {:induction false} LastColon(host: string, port: string)
    requires ':' !in port
    ensures AfterLastColon(host + [':'] + port) == Some(port)
  {
    var s := host + [':'] + port;
    if port == "" {
      assert s[|s| - 1] == ':';
    } else {
      var init := port[..|port| - 1];
      assert s[|s| - 1] == port[|port| - 1] && port[|port| - 1] in port && s[..|s| - 1] == host + [':'] + init;
      assert forall c <- init :: c in port;
      LastColon(host, init);
      assert init + [port[|port| - 1]] == port;
    }
  }

  lemma {:induction false} NoColon(s: string)
    requires ':' !in s
    ensures AfterLastColon(s) == None
  {
    if s != "" {
      assert s[|s| - 1] in s && forall c <- s[..|s| - 1] :: c in s;
      NoColon(s[..|s| - 1]);
    }
  }

  /** An address counts as SOCKS by its port, which stands behind its last colon. */
  lemma SocksPortExactly(host: string, port: nat)
    ensures SocksPort(host + [':'] + Decimal(port)) <==>
      port == 1080 || port == 10808 || port == 9050 || port == 9051 || port == 4145
    ensures ':' !in host ==> !SocksPort(host)
  {
    assert AllDigits(Decimal(port));
    LastColon(host, Decimal(port));
    ParseIntDecimal(port);
    if ':' !in host {
      NoColon(host);
    }
  }
}
